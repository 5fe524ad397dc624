/** Training-target encoding of the car and licence-plate heads
    (car_and_LP3/YOLO.py, _find_best, _loss_mask, _find_best_LP,
    _loss_mask_LP, _score_weight), as functions of the configuration and the
    label rows. The detector class in module Yolo computes the same targets
    with loops and arrays and is proved equal to these functions.

    A car label row is [class, cy, cx, h, w, rotate, class distribution...]
    in image fractions; a row whose class is negative (the renderer's -1
    sentinel) is not an object. A plate label row is [flag, X, Y, Z, r1, r2,
    r3, px, py, ..., class index]. */
module Encoder {
  import opened Numerics
  import opened Gluon
  import opened Grid

  // ---------------------------------------------------------------------
  // Car head

  /** What the encoder needs of a car row: the class distribution fills the
      class channels exactly, and an object (class >= 0) has a positive size,
      as the log-ratio size target requires. */
  predicate CarRow(cfg: Config, row: seq<real>) {
    && |row| == 6 + cfg.numClass
    && (row[0] >= 0.0 ==> row[3] > 0.0 && row[4] > 0.0)
  }

  predicate CarRows(cfg: Config, rows: seq<seq<real>>) {
    forall k :: 0 <= k < |rows| ==> CarRow(cfg, rows[k])
  }

  /** The object's box (cy, cx, h, w), the target of get_iou in mode 2. */
  function ObjectBox(row: seq<real>): Yxhw
    requires |row| >= 5
  {
    Yxhw(row[1], row[2], row[3], row[4])
  }

  /** The anchor grid, all_anchors_ltrb. */
  function AnchorBoxes(cfg: Config): (boxes: seq<Ltrb>)
    requires ValidConfig(cfg)
    ensures |boxes| == SlotCount(cfg)
  {
    seq(SlotCount(cfg), e requires 0 <= e < SlotCount(cfg) => AnchorBox(cfg, e))
  }

  /** _get_default_ltrb's concatenation: the anchor boxes up to the end of
      level i are those before it followed by level i's block. */
  lemma AnchorBoxesByLevel(cfg: Config, i: nat)
    requires ValidConfig(cfg) && i < NumLevels(cfg)
    ensures FirstSlot(cfg, i + 1) <= SlotCount(cfg)
    ensures AnchorBoxes(cfg)[..FirstSlot(cfg, i + 1)] == AnchorBoxes(cfg)[..FirstSlot(cfg, i)] + LevelBoxes(cfg, i)
  {
    LevelBoxesAreAnchorBoxes(cfg, i);
  }

  /** Every anchor box is well formed with positive area, so its IoU with any
      target is defined. */
  lemma AnchorBoxesWellFormed(cfg: Config)
    requires ValidConfig(cfg)
    ensures forall e :: 0 <= e < SlotCount(cfg) ==>
      AnchorBoxes(cfg)[e] == AnchorBox(cfg, e) && WellFormed(AnchorBox(cfg, e)) && Area(AnchorBox(cfg, e)) > 0.0
  {
    forall e | 0 <= e < SlotCount(cfg)
      ensures WellFormed(AnchorBox(cfg, e)) && Area(AnchorBox(cfg, e)) > 0.0
    {
      AnchorBoxCentred(cfg, e);
    }
  }

  /** get_iou(boxes, target, mode=2) over a list of boxes. */
  function Ious(boxes: seq<Ltrb>, target: Yxhw): (ious: seq<real>)
    requires forall e :: 0 <= e < |boxes| ==> WellFormed(boxes[e]) && Area(boxes[e]) > 0.0
    requires target.h >= 0.0 && target.w >= 0.0
    ensures |ious| == |boxes|
    ensures forall e :: 0 <= e < |boxes| ==> 0.0 <= ious[e] <= 1.0
  {
    seq(|boxes|, e requires 0 <= e < |boxes| => IouMode2(boxes[e], target))
  }

  /** The IoU of slot e's anchor box with a (cy, cx, h, w) target. */
  function AnchorIou(cfg: Config, e: nat, target: Yxhw): real
    requires ValidConfig(cfg) && e < SlotCount(cfg) && target.h >= 0.0 && target.w >= 0.0
  {
    AnchorBoxCentred(cfg, e);
    AreaOfToLtrb(target);
    Iou(AnchorBox(cfg, e), ToLtrb(target))
  }

  /** The slot an object is assigned to: the flat argmax of its IoU with every
      anchor box. It overlaps the object at least as much as every other
      anchor does, and strictly more than every earlier one. */
  function BestSlot(cfg: Config, row: seq<real>): (e: nat)
    requires ValidConfig(cfg) && |row| >= 5 && row[3] >= 0.0 && row[4] >= 0.0
    ensures e < SlotCount(cfg)
    ensures forall k :: 0 <= k < SlotCount(cfg) ==>
      AnchorIou(cfg, k, ObjectBox(row)) <= AnchorIou(cfg, e, ObjectBox(row))
    ensures forall k :: 0 <= k < e ==>
      AnchorIou(cfg, k, ObjectBox(row)) < AnchorIou(cfg, e, ObjectBox(row))
  {
    AnchorBoxesWellFormed(cfg);
    SlotCountPositive(cfg);
    var ious := Ious(AnchorBoxes(cfg), ObjectBox(row));
    IousAreIou(cfg, ObjectBox(row));
    ArgMax(ious)
  }

  lemma SlotCountPositive(cfg: Config)
    requires ValidConfig(cfg)
    ensures SlotCount(cfg) >= 1
  {
    AreaIsCellCount(cfg, 0);
    CumMonotone(cfg, 1, NumLevels(cfg));
    MulAtLeast(TotalArea(cfg), NumAnchors(cfg));
  }

  lemma IousAreIou(cfg: Config, target: Yxhw)
    requires ValidConfig(cfg) && target.h >= 0.0 && target.w >= 0.0
    ensures forall e :: 0 <= e < SlotCount(cfg) ==>
      AnchorBoxes(cfg)[e] == AnchorBox(cfg, e) && WellFormed(AnchorBox(cfg, e)) && Area(AnchorBox(cfg, e)) > 0.0
    ensures WellFormed(ToLtrb(target))
    ensures forall k :: 0 <= k < SlotCount(cfg) ==>
      Ious(AnchorBoxes(cfg), target)[k] == AnchorIou(cfg, k, target)
  {
    AnchorBoxesWellFormed(cfg);
    AreaOfToLtrb(target);
    forall k | 0 <= k < SlotCount(cfg)
      ensures Ious(AnchorBoxes(cfg), target)[k] == AnchorIou(cfg, k, target)
    {
      assert Ious(AnchorBoxes(cfg), target)[k] == IouMode2(AnchorBox(cfg, k), target);
    }
  }

  /** The encoded box of an object at a slot. */
  datatype BoxTarget = BoxTarget(ty: real, tx: real, th: real, tw: real)

  /** The centre offset of _find_best along one axis: the distance of the
      object centre c from the anchor centre, in units of the stride, plus
      0.5. */
  function CentreOffset(c: real, anchorCentre: real, size: real, step: real): real
    requires step > 0.0
  {
    (c - anchorCentre) * size / step + 0.5
  }

  /** The unclipped vertical and horizontal offsets of an object from the
      anchor box at a position. */
  function OffsetY(cfg: Config, pos: Position, row: seq<real>): real
    requires ValidConfig(cfg) && OnGrid(cfg, pos) && |row| >= 5
  {
    var box := BoxAt(cfg, pos);
    CentreOffset(row[1], (box.b + box.t) / 2.0, cfg.height as real, Step(cfg, pos.level) as real)
  }

  function OffsetX(cfg: Config, pos: Position, row: seq<real>): real
    requires ValidConfig(cfg) && OnGrid(cfg, pos) && |row| >= 5
  {
    var box := BoxAt(cfg, pos);
    CentreOffset(row[2], (box.r + box.l) / 2.0, cfg.width as real, Step(cfg, pos.level) as real)
  }

  const ClipLow: real := 0.0001
  const ClipHigh: real := 0.9999

  /** The box target of _find_best at a slot's cell position: the clipped centre offsets
      through the inverse sigmoid, and the log ratios of the object size to
      the slot's anchor size. The network's sigmoid maps the centre targets
      back into [0.0001, 0.9999], and exp maps the size targets back to the
      ratios. */
  function EncodeBox(t: Transcendentals, cfg: Config, pos: Position, row: seq<real>): (r: BoxTarget)
    requires Lawful(t) && ValidConfig(cfg) && OnGrid(cfg, pos)
    requires |row| >= 5 && row[3] > 0.0 && row[4] > 0.0
    ensures ClipLow <= Sigmoid(t, r.ty) <= ClipHigh && ClipLow <= Sigmoid(t, r.tx) <= ClipHigh
    ensures Sigmoid(t, r.ty) == Clip(OffsetY(cfg, pos, row), ClipLow, ClipHigh)
    ensures Sigmoid(t, r.tx) == Clip(OffsetX(cfg, pos, row), ClipLow, ClipHigh)
    ensures var a := cfg.anchors[pos.level][pos.anchor];
      t.exp(r.th) == row[3] / a.h && t.exp(r.tw) == row[4] / a.w
  {
    var a := cfg.anchors[pos.level][pos.anchor];
    var sy := Clip(OffsetY(cfg, pos, row), ClipLow, ClipHigh);
    var sx := Clip(OffsetX(cfg, pos, row), ClipLow, ClipHigh);
    SigmoidOfInvSigmoid(t, sy);
    SigmoidOfInvSigmoid(t, sx);
    assert row[3] / a.h > 0.0 && row[4] / a.w > 0.0;
    BoxTarget(InvSigmoid(t, sy), InvSigmoid(t, sx), t.log(row[3] / a.h), t.log(row[4] / a.w))
  }

  /** The box target as _find_best computes it from the chosen anchor box
      `bl` and the level's stride, one step at a time. */
  lemma EncodeBoxAsComputed(t: Transcendentals, cfg: Config, pos: Position, row: seq<real>,
                            bl: Ltrb, step: nat, ty: real, tx: real, th: real, tw: real)
    requires Lawful(t) && ValidConfig(cfg) && OnGrid(cfg, pos)
    requires |row| >= 5 && row[3] > 0.0 && row[4] > 0.0
    requires bl == BoxAt(cfg, pos) && step == Step(cfg, pos.level)
    requires ty == InvSigmoid(t, Clip(CentreOffset(row[1], (bl.b + bl.t) / 2.0, cfg.height as real, step as real), ClipLow, ClipHigh))
    requires tx == InvSigmoid(t, Clip(CentreOffset(row[2], (bl.r + bl.l) / 2.0, cfg.width as real, step as real), ClipLow, ClipHigh))
    requires th == t.log(row[3] / cfg.anchors[pos.level][pos.anchor].h)
    requires tw == t.log(row[4] / cfg.anchors[pos.level][pos.anchor].w)
    ensures BoxTarget(ty, tx, th, tw) == EncodeBox(t, cfg, pos, row)
  {
  }

  /** Everything _loss_mask writes at one slot: mask, score, box target,
      rotation and class distribution. */
  datatype SlotTarget = SlotTarget(mask: real, score: real, box: BoxTarget, rotate: real, cls: seq<real>)

  /** A slot no object was assigned to: all zeros. */
  function ZeroSlot(cfg: Config): SlotTarget {
    SlotTarget(0.0, 0.0, BoxTarget(0.0, 0.0, 0.0, 0.0), 0.0, seq(cfg.numClass, _ => 0.0))
  }

  /** The slot contents an object writes. */
  function ObjectTarget(t: Transcendentals, cfg: Config, row: seq<real>): SlotTarget
    requires Lawful(t) && ValidConfig(cfg) && CarRow(cfg, row) && row[0] >= 0.0
  {
    SlotTarget(1.0, 1.0, EncodeBox(t, cfg, PositionOf(cfg, BestSlot(cfg, row)), row), row[5], row[6..])
  }

  /** Row `row` is an object assigned to slot e. */
  predicate Chooses(cfg: Config, row: seq<real>, e: nat)
    requires ValidConfig(cfg) && CarRow(cfg, row)
  {
    row[0] >= 0.0 && BestSlot(cfg, row) == e
  }

  /** The targets _loss_mask builds for one image: start from all zeros and,
      object by object in order, overwrite the object's best slot; rows with
      a negative class are skipped. */
  function ImageTargets(t: Transcendentals, cfg: Config, rows: seq<seq<real>>): (targets: seq<SlotTarget>)
    requires Lawful(t) && ValidConfig(cfg) && CarRows(cfg, rows)
    ensures |targets| == SlotCount(cfg)
  {
    if rows == [] then seq(SlotCount(cfg), _ => ZeroSlot(cfg))
    else
      var prev := ImageTargets(t, cfg, rows[..|rows| - 1]);
      var row := rows[|rows| - 1];
      if row[0] < 0.0 then prev else prev[BestSlot(cfg, row) := ObjectTarget(t, cfg, row)]
  }

  /** One object more: the targets of the first j + 1 rows are those of the
      first j, with row j written at its best slot unless it is a sentinel. */
  lemma ImageTargetsStep(t: Transcendentals, cfg: Config, rows: seq<seq<real>>, j: nat)
    requires Lawful(t) && ValidConfig(cfg) && CarRows(cfg, rows) && j < |rows|
    ensures CarRows(cfg, rows[..j]) && CarRows(cfg, rows[..j + 1]) && CarRow(cfg, rows[j])
    ensures ImageTargets(t, cfg, rows[..j + 1]) ==
      if rows[j][0] < 0.0 then ImageTargets(t, cfg, rows[..j])
      else ImageTargets(t, cfg, rows[..j])[BestSlot(cfg, rows[j]) := ObjectTarget(t, cfg, rows[j])]
  {
    assert rows[..j + 1][..j] == rows[..j];
  }

  /** Mask and score are 1 at every slot some object is assigned to ... */
  lemma {:induction false} MaskSetAtChosen(t: Transcendentals, cfg: Config, rows: seq<seq<real>>, e: nat, k: nat)
    requires Lawful(t) && ValidConfig(cfg) && CarRows(cfg, rows) && e < SlotCount(cfg)
    requires k < |rows| && Chooses(cfg, rows[k], e)
    ensures ImageTargets(t, cfg, rows)[e].mask == 1.0 && ImageTargets(t, cfg, rows)[e].score == 1.0
  {
    var row := rows[|rows| - 1];
    if k < |rows| - 1 && !Chooses(cfg, row, e) {
      var init := rows[..|rows| - 1];
      assert init[k] == rows[k];
      MaskSetAtChosen(t, cfg, init, e, k);
    }
  }

  /** ... and every other slot keeps its zeros. */
  lemma {:induction false} ZeroAtUnchosen(t: Transcendentals, cfg: Config, rows: seq<seq<real>>, e: nat)
    requires Lawful(t) && ValidConfig(cfg) && CarRows(cfg, rows) && e < SlotCount(cfg)
    requires forall k :: 0 <= k < |rows| ==> !Chooses(cfg, rows[k], e)
    ensures ImageTargets(t, cfg, rows)[e] == ZeroSlot(cfg)
  {
    if rows != [] {
      var init := rows[..|rows| - 1];
      forall k | 0 <= k < |init| ensures !Chooses(cfg, init[k], e) {
        assert init[k] == rows[k];
      }
      ZeroAtUnchosen(t, cfg, init, e);
    }
  }

  /** A later object assigned to the same slot overwrites an earlier one: the
      slot holds the targets of the last object assigned to it. */
  lemma {:induction false} LastWriteWins(t: Transcendentals, cfg: Config, rows: seq<seq<real>>, k: nat, e: nat)
    requires Lawful(t) && ValidConfig(cfg) && CarRows(cfg, rows) && e < SlotCount(cfg)
    requires k < |rows| && Chooses(cfg, rows[k], e)
    requires forall j :: k < j < |rows| ==> !Chooses(cfg, rows[j], e)
    ensures ImageTargets(t, cfg, rows)[e] == ObjectTarget(t, cfg, rows[k])
  {
    if k < |rows| - 1 {
      var init := rows[..|rows| - 1];
      forall j | k < j < |init| ensures !Chooses(cfg, init[j], e) {
        assert init[j] == rows[j];
      }
      LastWriteWins(t, cfg, init, k, e);
    }
  }

  /** An image whose rows are all sentinels (negative class) gets no
      positive slot. */
  lemma {:induction false} SentinelRowsGiveNoTargets(t: Transcendentals, cfg: Config, rows: seq<seq<real>>)
    requires Lawful(t) && ValidConfig(cfg) && CarRows(cfg, rows)
    requires forall k :: 0 <= k < |rows| ==> rows[k][0] < 0.0
    ensures forall e :: 0 <= e < SlotCount(cfg) ==> ImageTargets(t, cfg, rows)[e] == ZeroSlot(cfg)
  {
    if rows != [] {
      SentinelRowsGiveNoTargets(t, cfg, rows[..|rows| - 1]);
    }
  }

  // ---------------------------------------------------------------------
  // Score weighting

  /** Which head a score weight is for: the `mode` argument 'car' or 'LP'. */
  datatype Head = Car | Plate

  /** _score_weight: the head's positive weight where the mask is positive,
      its negative weight elsewhere. */
  function ScoreWeight(cfg: Config, head: Head, mask: seq<real>): (w: seq<real>)
    ensures |w| == |mask|
  {
    var p := if head == Car then cfg.positiveWeight else cfg.lpPositiveWeight;
    var n := if head == Car then cfg.negativeWeight else cfg.lpNegativeWeight;
    seq(|mask|, i requires 0 <= i < |mask| => if mask[i] > 0.0 then p else n)
  }

  /** The mask channel of an image's targets. */
  function Masks(targets: seq<SlotTarget>): (m: seq<real>)
    ensures |m| == |targets|
  {
    seq(|targets|, i requires 0 <= i < |targets| => targets[i].mask)
  }

  /** With the car head's mask, the score weight is the positive weight exactly
      at the slots objects are assigned to. */
  lemma ScoreWeightAtChosen(t: Transcendentals, cfg: Config, rows: seq<seq<real>>, e: nat)
    requires Lawful(t) && ValidConfig(cfg) && CarRows(cfg, rows) && e < SlotCount(cfg)
    ensures ScoreWeight(cfg, Car, Masks(ImageTargets(t, cfg, rows)))[e] ==
      if exists k :: 0 <= k < |rows| && Chooses(cfg, rows[k], e) then cfg.positiveWeight else cfg.negativeWeight
  {
    if k :| 0 <= k < |rows| && Chooses(cfg, rows[k], e) {
      MaskSetAtChosen(t, cfg, rows, e, k);
    } else {
      ZeroAtUnchosen(t, cfg, rows, e);
    }
  }

  // ---------------------------------------------------------------------
  // Licence-plate head

  /** The plate grid is hard-wired to 32 x 20 cells of 16 pixels, laid over
      the first level's slots. */
  const PlateCols: nat := 32
  const PlateGridRows: nat := 20
  const PlateCellPixels: real := 16.0

  /** The plate cell of a pixel position (px, py) = (row[7], row[8]): each
      coordinate divided by 16, truncated, and clamped to the grid. */
  function PlateCell(px: real, py: real): (c: nat)
    ensures c < PlateCols * PlateGridRows
  {
    var x := ClipInt(Trunc(px / PlateCellPixels), 0, PlateCols - 1);
    var y := ClipInt(Trunc(py / PlateCellPixels), 0, PlateGridRows - 1);
    MixedRadixBound(y, x, PlateGridRows, PlateCols);
    y * PlateCols + x
  }

  /** A pixel inside the 512 x 320 plate grid lands in the 16-pixel cell that
      contains it: column c = cell mod 32, row = cell div 32. */
  lemma PlateCellContainsPixel(px: real, py: real)
    requires 0.0 <= px < 512.0 && 0.0 <= py < 320.0
    ensures var c := PlateCell(px, py);
      && 16.0 * (c % 32) as real <= px < 16.0 * (c % 32 + 1) as real
      && 16.0 * (c / 32) as real <= py < 16.0 * (c / 32 + 1) as real
  {
    var x, y := Trunc(px / 16.0), Trunc(py / 16.0);
    assert 0 <= x < 32 && 0 <= y < 20;
    DivModUnique(y * 32 + x, 32, y, x);
  }

  /** The span of the plate rotations in radians, r_max * 2 * pi / 180: twice
      the largest rotation, as a rotation encodes within +-r_max degrees. */
  function RMaxRad(cfg: Config, i: nat): real
    requires ValidConfig(cfg) && i < 3
  {
    cfg.lpRMax[i] * 2.0 * Pi / 180.0
  }

  /** What the plate encoder needs of a plate row: the pixel position and a
      class index, and for an object (flag >= 0) a positive depth (its target
      is a log) and rotations strictly inside (-r_max, r_max) degrees (so the
      inverse sigmoid is finite), and a whole class index below the number of
      plate classes. */
  predicate PlateRow(cfg: Config, row: seq<real>)
    requires ValidConfig(cfg)
  {
    && |row| >= 9
    && (row[0] >= 0.0 ==>
         && row[3] > 0.0
         && (forall i :: 0 <= i < 3 ==> 0.0 < row[4 + i] / RMaxRad(cfg, i) + 0.5 < 1.0)
         && row[|row| - 1] == row[|row| - 1].Floor as real
         && 0 <= row[|row| - 1].Floor < cfg.lpNumClass)
  }

  predicate PlateRows(cfg: Config, rows: seq<seq<real>>)
    requires ValidConfig(cfg)
  {
    forall k :: 0 <= k < |rows| ==> PlateRow(cfg, rows[k])
  }

  /** The plate class index, L[-1]. */
  function PlateClass(row: seq<real>): int
    requires |row| >= 1
  {
    row[|row| - 1].Floor
  }

  /** The 6-D pose target of _find_best_LP: X / 1000, Y / 1000, log(Z / 1000),
      and each rotation through the inverse sigmoid after r / r_max + 0.5. */
  function EncodePose(t: Transcendentals, cfg: Config, row: seq<real>): (pose: seq<real>)
    requires Lawful(t) && ValidConfig(cfg) && PlateRow(cfg, row) && row[0] >= 0.0
    ensures |pose| == 6
  {
    [row[1] / 1000.0, row[2] / 1000.0, t.log(row[3] / 1000.0),
     EncodeRotation(t, cfg, row[4], 0), EncodeRotation(t, cfg, row[5], 1), EncodeRotation(t, cfg, row[6], 2)]
  }

  /** The target of rotation i: the inverse sigmoid of r / r_max + 0.5. */
  function EncodeRotation(t: Transcendentals, cfg: Config, r: real, i: nat): real
    requires ValidConfig(cfg) && i < 3
    requires 0.0 < r / RMaxRad(cfg, i) + 0.5 < 1.0
  {
    InvSigmoid(t, r / RMaxRad(cfg, i) + 0.5)
  }

  /** What _loss_mask_LP writes at one plate slot: score, mask, pose and the
      one-hot class channels. */
  datatype PlateTarget = PlateTarget(score: real, mask: real, pose: seq<real>, cls: seq<real>)

  function ZeroPlate(cfg: Config): PlateTarget {
    PlateTarget(0.0, 0.0, seq(6, _ => 0.0), seq(cfg.lpNumClass, _ => 0.0))
  }

  /** Row `row` is a plate assigned to cell c. */
  predicate PlateChooses(cfg: Config, row: seq<real>, c: nat)
    requires ValidConfig(cfg) && PlateRow(cfg, row)
  {
    row[0] >= 0.0 && PlateCell(row[7], row[8]) == c
  }

  /** The plate targets of one image over the first level's cells: each plate
      overwrites score, mask and pose at its cell and sets its class channel
      to 1, leaving the class channels set by earlier plates at that cell. */
  function PlateTargets(t: Transcendentals, cfg: Config, rows: seq<seq<real>>): (targets: seq<PlateTarget>)
    requires Lawful(t) && ValidConfig(cfg) && PlateRows(cfg, rows)
    requires LevelArea(cfg, 0) >= PlateCols * PlateGridRows
    ensures |targets| == LevelArea(cfg, 0)
    ensures forall c :: 0 <= c < |targets| ==> |targets[c].cls| == cfg.lpNumClass
  {
    if rows == [] then seq(LevelArea(cfg, 0), _ => ZeroPlate(cfg))
    else
      var prev := PlateTargets(t, cfg, rows[..|rows| - 1]);
      var row := rows[|rows| - 1];
      if row[0] < 0.0 then prev
      else AddPlate(t, cfg, prev, row)
  }

  /** One plate written into the targets: score, mask and pose at its cell,
      and its class channel set among that cell's channels. */
  function AddPlate(t: Transcendentals, cfg: Config, prev: seq<PlateTarget>, row: seq<real>): (targets: seq<PlateTarget>)
    requires Lawful(t) && ValidConfig(cfg) && PlateRow(cfg, row) && row[0] >= 0.0
    requires |prev| >= PlateCols * PlateGridRows
    requires forall c :: 0 <= c < |prev| ==> |prev[c].cls| == cfg.lpNumClass
    ensures |targets| == |prev|
    ensures forall c :: 0 <= c < |targets| ==> |targets[c].cls| == cfg.lpNumClass
  {
    var c := PlateCell(row[7], row[8]);
    prev[c := PlateTarget(1.0, 1.0, EncodePose(t, cfg, row), prev[c].cls[PlateClass(row) := 1.0])]
  }

  /** One plate more, as ImageTargetsStep. */
  lemma PlateTargetsStep(t: Transcendentals, cfg: Config, rows: seq<seq<real>>, j: nat)
    requires Lawful(t) && ValidConfig(cfg) && PlateRows(cfg, rows) && j < |rows|
    requires LevelArea(cfg, 0) >= PlateCols * PlateGridRows
    ensures PlateRows(cfg, rows[..j]) && PlateRows(cfg, rows[..j + 1]) && PlateRow(cfg, rows[j])
    ensures var prev := PlateTargets(t, cfg, rows[..j]);
      var c := PlateCell(rows[j][7], rows[j][8]);
      PlateTargets(t, cfg, rows[..j + 1]) ==
        if rows[j][0] < 0.0 then prev
        else prev[c := PlateTarget(1.0, 1.0, EncodePose(t, cfg, rows[j]), prev[c].cls[PlateClass(rows[j]) := 1.0])]
  {
    assert rows[..j + 1][..j] == rows[..j];
  }

  /** Class channel k of cell c is 1 exactly when some plate of class k is
      assigned to c (the classes of all plates sharing a cell accumulate), and
      0 otherwise. */
  lemma {:induction false} PlateClassesAccumulate(t: Transcendentals, cfg: Config, rows: seq<seq<real>>, c: nat, k: nat)
    requires Lawful(t) && ValidConfig(cfg) && PlateRows(cfg, rows)
    requires LevelArea(cfg, 0) >= PlateCols * PlateGridRows
    requires c < LevelArea(cfg, 0) && k < cfg.lpNumClass
    ensures PlateTargets(t, cfg, rows)[c].cls[k] ==
      if exists j :: 0 <= j < |rows| && PlateChooses(cfg, rows[j], c) && PlateClass(rows[j]) == k then 1.0 else 0.0
  {
    if rows != [] {
      var init := rows[..|rows| - 1];
      PlateClassesAccumulate(t, cfg, init, c, k);
      forall j | 0 <= j < |init| ensures init[j] == rows[j] { }
    }
  }

  /** Score and mask are 1 exactly at the cells some plate is assigned to. */
  lemma {:induction false} PlateMaskAtChosen(t: Transcendentals, cfg: Config, rows: seq<seq<real>>, c: nat)
    requires Lawful(t) && ValidConfig(cfg) && PlateRows(cfg, rows)
    requires LevelArea(cfg, 0) >= PlateCols * PlateGridRows
    requires c < LevelArea(cfg, 0)
    ensures PlateTargets(t, cfg, rows)[c].mask == PlateTargets(t, cfg, rows)[c].score ==
      if exists j :: 0 <= j < |rows| && PlateChooses(cfg, rows[j], c) then 1.0 else 0.0
  {
    if rows != [] {
      var init := rows[..|rows| - 1];
      PlateMaskAtChosen(t, cfg, init, c);
      forall j | 0 <= j < |init| ensures init[j] == rows[j] { }
    }
  }

  /** The mask channel of an image's plate targets: the plate head's
      counterpart of Masks, over its own target record. */
  function PlateMasks(targets: seq<PlateTarget>): (m: seq<real>)
    ensures |m| == |targets|
  {
    seq(|targets|, i requires 0 <= i < |targets| => targets[i].mask)
  }

  /** With the plate head's mask, the score weight is the plate positive
      weight exactly at the cells plates are assigned to, and the plate
      negative weight at every other cell. */
  lemma ScoreWeightAtPlateCell(t: Transcendentals, cfg: Config, rows: seq<seq<real>>, c: nat)
    requires Lawful(t) && ValidConfig(cfg) && PlateRows(cfg, rows)
    requires LevelArea(cfg, 0) >= PlateCols * PlateGridRows
    requires c < LevelArea(cfg, 0)
    ensures ScoreWeight(cfg, Plate, PlateMasks(PlateTargets(t, cfg, rows)))[c] ==
      if exists j :: 0 <= j < |rows| && PlateChooses(cfg, rows[j], c) then cfg.lpPositiveWeight else cfg.lpNegativeWeight
  {
    PlateMaskAtChosen(t, cfg, rows, c);
  }

  /** The pose at a cell is the pose of the last plate assigned to it. */
  lemma {:induction false} PlatePoseLastWriteWins(t: Transcendentals, cfg: Config, rows: seq<seq<real>>, j: nat, c: nat)
    requires Lawful(t) && ValidConfig(cfg) && PlateRows(cfg, rows)
    requires LevelArea(cfg, 0) >= PlateCols * PlateGridRows
    requires c < LevelArea(cfg, 0)
    requires j < |rows| && PlateChooses(cfg, rows[j], c)
    requires forall i :: j < i < |rows| ==> !PlateChooses(cfg, rows[i], c)
    ensures PlateTargets(t, cfg, rows)[c].pose == EncodePose(t, cfg, rows[j])
  {
    if j < |rows| - 1 {
      var init := rows[..|rows| - 1];
      forall i | j < i < |init| ensures !PlateChooses(cfg, init[i], c) {
        assert init[i] == rows[i];
      }
      PlatePoseLastWriteWins(t, cfg, init, j, c);
    }
  }
}
