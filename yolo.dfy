/** The detector object of car_and_LP3/YOLO.py: the decode tables built at
    construction (_init_syxhw), the anchor boxes built for training
    (_get_default_ltrb), and the loops that assign objects to slots
    (_find_best, _loss_mask, _loss_mask_LP), pick the top detection (predict)
    and activate the plate pose (LP_pose_activation). Each method is proved
    to compute the function of modules Encoder and Decoder that specifies it. */
module Yolo {
  import opened Numerics
  import opened Gluon
  import opened Grid
  import opened Encoder
  import opened Decoder

  class Detector {
    /** The configuration the detector was built with. */
    const cfg: Config
    /** all_anchors_ltrb: one anchor box per slot, built by GetDefaultLtrb. */
    var ltrb: seq<Ltrb>
    /** The decode tables s, y, x, h, w, one Slot record per slot. */
    var table: array<Slot>

    /** The decode tables hold every slot's stride, cell origin and anchor
        size. */
    ghost predicate TablesReady()
      reads this, table
    {
      && ValidConfig(cfg)
      && table.Length == SlotCount(cfg)
      && forall e :: 0 <= e < table.Length ==> table[e] == TableEntry(cfg, e)
    }

    /** all_anchors_ltrb lists every slot's anchor box. */
    ghost predicate AnchorsReady()
      reads this
    {
      ValidConfig(cfg) && ltrb == AnchorBoxes(cfg)
    }

    /** __init__: the decode tables are built once the configuration is
        read. */
    constructor (config: Config)
      requires ValidConfig(config)
      ensures cfg == config && ltrb == [] && TablesReady()
    {
      cfg := config;
      ltrb := [];
      table := new Slot[0];
      new;
      InitSyxhw();
    }

    /** _init_syxhw: level by level, fills the level's block of slots
        [a_start * n, (a_start + area) * n) with the stride, the cell origin
        (row * step, col * step) and the anchor size. */
    method InitSyxhw()
      requires ValidConfig(cfg)
      modifies this
      ensures TablesReady() && fresh(table) && ltrb == old(ltrb)
    {
      var config := cfg;
      var slots := new Slot[SlotCount(config)](_ => Slot(0.0, 0.0, 0.0, 0.0, 0.0));
      var aStart := 0;
      for i := 0 to NumLevels(config)
        modifies slots
        invariant aStart == Cum(config, i)
        invariant FirstSlot(config, i) <= slots.Length
        invariant forall e :: 0 <= e < FirstSlot(config, i) ==> slots[e] == TableEntry(config, e)
      {
        InitLevel(slots, i, aStart);
        aStart := aStart + LevelArea(config, i);
      }
      table := slots;
    }

    /** One level of _init_syxhw: the level's a * n entries, from a_start * n
        on. */
    method InitLevel(slots: array<Slot>, i: nat, aStart: nat)
      requires ValidConfig(cfg) && i < NumLevels(cfg) && aStart == Cum(cfg, i)
      requires slots.Length == SlotCount(cfg) && FirstSlot(cfg, i) <= slots.Length
      requires forall e :: 0 <= e < FirstSlot(cfg, i) ==> slots[e] == TableEntry(cfg, e)
      modifies slots
      ensures FirstSlot(cfg, i + 1) <= slots.Length
      ensures forall e :: 0 <= e < FirstSlot(cfg, i + 1) ==> slots[e] == TableEntry(cfg, e)
    {
      var config := cfg;
      var n := |config.anchors[0]|;
      var a := LevelArea(config, i);
      LevelSlots(config, i);
      var first := aStart * n;
      assert first == FirstSlot(config, i);
      for k := 0 to a * n
        invariant forall e :: 0 <= e < first + k ==> slots[e] == TableEntry(config, e)
      {
        var sl := LevelEntry(i, first, k);
        slots[first + k] := sl;
      }
    }

    /** Entry k of level i's block as _init_syxhw computes it: the stride,
        the row origin from the `repeat`ed arange of row starts (entry k is
        start k / (n * x_num)), the column origin from the `tile`d arange of
        column starts (entry k is start (k mod (n * x_num)) / n), and anchor
        k mod n. It is the table entry of slot a_start * n + k. */
    method LevelEntry(i: nat, first: nat, k: nat) returns (sl: Slot)
      requires ValidConfig(cfg) && i < NumLevels(cfg) && first == FirstSlot(cfg, i)
      requires k < LevelArea(cfg, i) * NumAnchors(cfg)
      ensures first + k < SlotCount(cfg) && sl == TableEntry(cfg, first + k)
    {
      var config := cfg;
      var n := |config.anchors[0]|;
      var step := Step(config, i);
      var xNum := config.width / step;
      AreaIsCellCount(config, i);
      MulAtLeast(xNum, n);
      var y := k / (n * xNum);
      var x := (k % (n * xNum)) / n;
      var anchor := config.anchors[i][k % n];
      sl := Slot(step as real, y as real * step as real, x as real * step as real, anchor.h, anchor.w);
      TableEntryAsComputed(config, i, first, k, n, step, xNum, y, x, sl);
    }

    /** _get_default_ltrb: the per-level blocks of anchor boxes,
        concatenated in level order, are the anchor boxes of all slots. */
    method GetDefaultLtrb()
      requires ValidConfig(cfg)
      modifies this
      ensures AnchorsReady() && table == old(table)
    {
      var config := cfg;
      var boxes := [];
      for i := 0 to NumLevels(config)
        modifies {}
        invariant FirstSlot(config, i) <= SlotCount(config)
        invariant boxes == AnchorBoxes(config)[..FirstSlot(config, i)]
      {
        AnchorBoxesByLevel(config, i);
        boxes := boxes + LevelBoxes(config, i);
      }
      assert boxes == AnchorBoxes(config);
      ltrb := boxes;
    }

    /** _find_best: the flat argmax of the IoUs, split into cell and anchor,
        the pyramid level found by scanning the cumulative areas, and the box
        target computed from the chosen anchor box. The pair is the object's
        best slot and the box is its encoded box there. */
    method FindBest(t: Transcendentals, row: seq<real>) returns (pixel: nat, anchor: nat, box: BoxTarget)
      requires Lawful(t) && AnchorsReady() && NumLevels(cfg) == 3
      requires |row| >= 5 && row[3] > 0.0 && row[4] > 0.0
      ensures anchor < NumAnchors(cfg)
      ensures pixel * NumAnchors(cfg) + anchor == BestSlot(cfg, row)
      ensures box == EncodeBox(t, cfg, PositionOf(cfg, BestSlot(cfg, row)), row)
    {
      var config := cfg;
      AnchorBoxesWellFormed(config);
      SlotCountPositive(config);
      var ious := Ious(ltrb, ObjectBox(row));
      var best := ArgMax(ious);
      var n := |config.anchors[0]|;
      pixel, anchor := best / n, best % n;
      var bestLtrb := ltrb[best];
      DivBound(best, TotalArea(config), n);
      DivMod(best, n);

      var layer := PyramidLevel(pixel);
      ghost var pos := PositionOf(config, best);
      assert pos.level == layer && pos.anchor == anchor && bestLtrb == BoxAt(config, pos);
      var step := Step(config, layer);

      var sigmoidTy := Clip(CentreOffset(row[1], (bestLtrb.b + bestLtrb.t) / 2.0, config.height as real, step as real), ClipLow, ClipHigh);
      var ty := InvSigmoid(t, sigmoidTy);
      var sigmoidTx := Clip(CentreOffset(row[2], (bestLtrb.r + bestLtrb.l) / 2.0, config.width as real, step as real), ClipLow, ClipHigh);
      var tx := InvSigmoid(t, sigmoidTx);

      var th := t.log(row[3] / config.anchors[layer][anchor].h);
      var tw := t.log(row[4] / config.anchors[layer][anchor].w);
      box := BoxTarget(ty, tx, th, tw);
      EncodeBoxAsComputed(t, config, pos, row, bestLtrb, step, ty, tx, th, tw);
    }

    /** The level scan of _find_best: the cumulative cell counts are summed
        level by level until they pass the cell index. The level found is
        the level the cell lies in. */
    method PyramidLevel(pixel: nat) returns (layer: nat)
      requires ValidConfig(cfg) && pixel < TotalArea(cfg)
      ensures layer < NumLevels(cfg) && layer == LevelOf(cfg, pixel)
    {
      var config := cfg;
      var a0 := 0;
      layer := 0;
      var i := 0;
      while i < NumLevels(config)
        invariant 0 <= i <= NumLevels(config)
        invariant a0 == Cum(config, i) <= pixel
      {
        a0 := a0 + LevelArea(config, i);
        if pixel < a0 {
          layer := i;
          break;
        }
        i := i + 1;
      }
      LevelOfUnique(config, pixel, layer);
    }

    /** _loss_mask: for every image, every object row in order (sentinel
        rows skipped) writes mask, score, box, rotation and class channels
        at its best slot; every other slot stays zero. */
    method LossMask(t: Transcendentals, batch: seq<seq<seq<real>>>) returns (targets: array2<SlotTarget>)
      requires Lawful(t) && AnchorsReady() && NumLevels(cfg) == 3
      requires forall b :: 0 <= b < |batch| ==> CarRows(cfg, batch[b])
      ensures fresh(targets)
      ensures targets.Length0 == |batch| && targets.Length1 == SlotCount(cfg)
      ensures forall b, e :: 0 <= b < |batch| && 0 <= e < SlotCount(cfg) ==>
        targets[b, e] == ImageTargets(t, cfg, batch[b])[e]
    {
      var config := cfg;
      targets := new SlotTarget[|batch|, SlotCount(config)]((_, _) => ZeroSlot(config));
      for b := 0 to |batch|
        invariant forall b', e :: 0 <= b' < b && 0 <= e < SlotCount(config) ==>
          targets[b', e] == ImageTargets(t, config, batch[b'])[e]
        invariant forall b', e :: b <= b' < |batch| && 0 <= e < SlotCount(config) ==>
          targets[b', e] == ZeroSlot(config)
      {
        LossMaskImage(t, targets, b, batch[b]);
      }
    }

    /** The loop of _loss_mask over the objects of image b: it turns the
        image's all-zero targets into the image's targets and leaves the
        other images alone. */
    method LossMaskImage(t: Transcendentals, targets: array2<SlotTarget>, b: nat, rows: seq<seq<real>>)
      requires Lawful(t) && AnchorsReady() && NumLevels(cfg) == 3 && CarRows(cfg, rows)
      requires b < targets.Length0 && targets.Length1 == SlotCount(cfg)
      requires forall e :: 0 <= e < SlotCount(cfg) ==> targets[b, e] == ZeroSlot(cfg)
      modifies targets
      ensures forall b', e :: 0 <= b' < targets.Length0 && 0 <= e < targets.Length1 ==>
        targets[b', e] == if b' == b then ImageTargets(t, cfg, rows)[e] else old(targets[b', e])
    {
      var config := cfg;
      for j := 0 to |rows|
        invariant CarRows(config, rows[..j])
        invariant forall e :: 0 <= e < targets.Length1 ==> targets[b, e] == ImageTargets(t, config, rows[..j])[e]
        invariant forall b', e :: 0 <= b' < targets.Length0 && b' != b && 0 <= e < targets.Length1 ==>
          targets[b', e] == old(targets[b', e])
      {
        ObjectRowStep(t, targets, b, rows, j);
      }
      assert rows[..|rows|] == rows;
    }

    /** One pass of _loss_mask's loop over the rows of image b: a sentinel
        row (class < 0) is skipped, any other row is assigned. */
    method ObjectRowStep(t: Transcendentals, targets: array2<SlotTarget>, b: nat, rows: seq<seq<real>>, j: nat)
      requires Lawful(t) && AnchorsReady() && NumLevels(cfg) == 3 && CarRows(cfg, rows) && j < |rows|
      requires b < targets.Length0 && targets.Length1 == SlotCount(cfg)
      requires CarRows(cfg, rows[..j])
      requires forall e :: 0 <= e < targets.Length1 ==> targets[b, e] == ImageTargets(t, cfg, rows[..j])[e]
      modifies targets
      ensures CarRows(cfg, rows[..j + 1])
      ensures forall e :: 0 <= e < targets.Length1 ==> targets[b, e] == ImageTargets(t, cfg, rows[..j + 1])[e]
      ensures forall b', e :: 0 <= b' < targets.Length0 && b' != b && 0 <= e < targets.Length1 ==>
        targets[b', e] == old(targets[b', e])
    {
      var row := rows[j];
      ImageTargetsStep(t, cfg, rows, j);
      if row[0] < 0.0 {
        return;
      }
      AssignObject(t, targets, b, row);
    }

    /** One object row of _loss_mask: the slot _find_best picks gets score
        and mask 1, the box target, the rotation and the class channels. */
    method AssignObject(t: Transcendentals, targets: array2<SlotTarget>, b: nat, row: seq<real>)
      requires Lawful(t) && AnchorsReady() && NumLevels(cfg) == 3 && CarRow(cfg, row) && row[0] >= 0.0
      requires b < targets.Length0 && targets.Length1 == SlotCount(cfg)
      modifies targets
      ensures forall b', e :: 0 <= b' < targets.Length0 && 0 <= e < targets.Length1 ==>
        targets[b', e] == if b' == b && e == BestSlot(cfg, row) then ObjectTarget(t, cfg, row) else old(targets[b', e])
    {
      var n := |cfg.anchors[0]|;
      var px, anc, box := FindBest(t, row);
      targets[b, px * n + anc] := SlotTarget(1.0, 1.0, box, row[5], row[6..]);
    }

    /** _loss_mask_LP: for every image, every plate row in order (sentinel
        rows skipped) writes score, mask and pose at its plate cell and sets
        its class channel there, over the first level's cells. */
    method LossMaskLP(t: Transcendentals, batch: seq<seq<seq<real>>>) returns (targets: array2<PlateTarget>)
      requires Lawful(t) && ValidConfig(cfg)
      requires LevelArea(cfg, 0) >= PlateCols * PlateGridRows
      requires forall b :: 0 <= b < |batch| ==> PlateRows(cfg, batch[b])
      ensures fresh(targets)
      ensures targets.Length0 == |batch| && targets.Length1 == LevelArea(cfg, 0)
      ensures forall b, c :: 0 <= b < |batch| && 0 <= c < LevelArea(cfg, 0) ==>
        targets[b, c] == PlateTargets(t, cfg, batch[b])[c]
    {
      var config := cfg;
      targets := new PlateTarget[|batch|, LevelArea(config, 0)]((_, _) => ZeroPlate(config));
      for b := 0 to |batch|
        invariant forall b', c :: 0 <= b' < b && 0 <= c < LevelArea(config, 0) ==>
          targets[b', c] == PlateTargets(t, config, batch[b'])[c]
        invariant forall b', c :: b <= b' < |batch| && 0 <= c < LevelArea(config, 0) ==>
          targets[b', c] == ZeroPlate(config)
      {
        LossMaskImageLP(t, targets, b, batch[b]);
      }
    }

    /** The loop of _loss_mask_LP over the plates of image b. */
    method LossMaskImageLP(t: Transcendentals, targets: array2<PlateTarget>, b: nat, rows: seq<seq<real>>)
      requires Lawful(t) && ValidConfig(cfg) && PlateRows(cfg, rows)
      requires LevelArea(cfg, 0) >= PlateCols * PlateGridRows
      requires b < targets.Length0 && targets.Length1 == LevelArea(cfg, 0)
      requires forall c :: 0 <= c < LevelArea(cfg, 0) ==> targets[b, c] == ZeroPlate(cfg)
      modifies targets
      ensures forall b', c :: 0 <= b' < targets.Length0 && 0 <= c < targets.Length1 ==>
        targets[b', c] == if b' == b then PlateTargets(t, cfg, rows)[c] else old(targets[b', c])
    {
      var config := cfg;
      for j := 0 to |rows|
        invariant PlateRows(config, rows[..j])
        invariant forall c :: 0 <= c < targets.Length1 ==> targets[b, c] == PlateTargets(t, config, rows[..j])[c]
        invariant forall b', c :: 0 <= b' < targets.Length0 && b' != b && 0 <= c < targets.Length1 ==>
          targets[b', c] == old(targets[b', c])
      {
        PlateRowStep(t, targets, b, rows, j);
      }
      assert rows[..|rows|] == rows;
    }

    /** One pass of _loss_mask_LP's loop over the rows of image b: a sentinel
        row (class < 0) is skipped, any other row is assigned. */
    method PlateRowStep(t: Transcendentals, targets: array2<PlateTarget>, b: nat, rows: seq<seq<real>>, j: nat)
      requires Lawful(t) && ValidConfig(cfg) && PlateRows(cfg, rows) && j < |rows|
      requires LevelArea(cfg, 0) >= PlateCols * PlateGridRows
      requires b < targets.Length0 && targets.Length1 == LevelArea(cfg, 0)
      requires PlateRows(cfg, rows[..j])
      requires forall c :: 0 <= c < targets.Length1 ==> targets[b, c] == PlateTargets(t, cfg, rows[..j])[c]
      modifies targets
      ensures PlateRows(cfg, rows[..j + 1])
      ensures forall c :: 0 <= c < targets.Length1 ==> targets[b, c] == PlateTargets(t, cfg, rows[..j + 1])[c]
      ensures forall b', c :: 0 <= b' < targets.Length0 && b' != b && 0 <= c < targets.Length1 ==>
        targets[b', c] == old(targets[b', c])
    {
      var row := rows[j];
      PlateTargetsStep(t, cfg, rows, j);
      if row[0] < 0.0 {
        return;
      }
      AssignPlate(t, targets, b, row);
    }

    /** One plate row of _loss_mask_LP: its plate cell gets score and mask 1,
        the pose target, and its class channel set. */
    method AssignPlate(t: Transcendentals, targets: array2<PlateTarget>, b: nat, row: seq<real>)
      requires Lawful(t) && ValidConfig(cfg) && PlateRow(cfg, row) && row[0] >= 0.0
      requires b < targets.Length0 && targets.Length1 == LevelArea(cfg, 0)
      requires LevelArea(cfg, 0) >= PlateCols * PlateGridRows
      requires |targets[b, PlateCell(row[7], row[8])].cls| == cfg.lpNumClass
      modifies targets
      ensures forall b', c :: 0 <= b' < targets.Length0 && 0 <= c < targets.Length1 ==>
        targets[b', c] ==
          if b' == b && c == PlateCell(row[7], row[8])
          then PlateTarget(1.0, 1.0, EncodePose(t, cfg, row), old(targets[b', c]).cls[PlateClass(row) := 1.0])
          else old(targets[b', c])
    {
      var config := cfg;
      var px := PlateCell(row[7], row[8]);
      var pose := EncodePose(t, config, row);
      var cls := targets[b, px].cls;
      targets[b, px] := PlateTarget(1.0, 1.0, pose, cls[PlateClass(row) := 1.0]);
    }

    /** The car part of predict: for every image, the slot of highest
        sigmoid score, its box decoded with the slot's table entry and
        converted to centre and size, with its rotation and class
        channels. */
    method Predict(t: Transcendentals, outs: seq<ImageOutput>) returns (preds: seq<Detection>)
      requires Lawful(t) && TablesReady()
      requires forall i :: 0 <= i < |outs| ==> Shaped(cfg, outs[i])
      ensures |preds| == |outs|
      ensures forall i :: 0 <= i < |outs| ==> preds[i] == PredictImage(t, cfg, outs[i])
    {
      var config := cfg;
      SlotCountPositive(config);
      preds := [];
      for i := 0 to |outs|
        invariant |preds| == i
        invariant forall j :: 0 <= j < i ==> preds[j] == PredictImage(t, config, outs[j])
      {
        var out := outs[i];
        var best := ArgMax(Sigmoids(t, out.score));
        var ltrb := DecodeBox(t, config, table[best], out.box[best]);
        var y := (ltrb.t + ltrb.b) / 2.0;
        var x := (ltrb.l + ltrb.r) / 2.0;
        var h := ltrb.b - ltrb.t;
        var w := ltrb.r - ltrb.l;
        preds := preds + [Detection(Sigmoid(t, out.score[best]), y, x, h, w, out.rotate[best], out.cls[best])];
      }
    }

    /** The plate part of predict: for every image, the sigmoid score of the
        best plate cell followed by its activated pose. */
    method PredictPlates(t: Transcendentals, outs: seq<PlateOutput>) returns (preds: seq<seq<real>>)
      requires Lawful(t) && ValidConfig(cfg)
      requires forall i :: 0 <= i < |outs| ==> PlateShaped(outs[i])
      ensures |preds| == |outs|
      ensures forall i :: 0 <= i < |outs| ==> preds[i] == PredictPlate(t, cfg, outs[i])
    {
      var config := cfg;
      preds := [];
      for i := 0 to |outs|
        invariant |preds| == i
        invariant forall j :: 0 <= j < i ==> preds[j] == PredictPlate(t, config, outs[j])
      {
        var out := outs[i];
        var best := ArgMax(Sigmoids(t, out.score));
        var pose := PoseActivation(t, out.pose[best]);
        preds := preds + [[Sigmoid(t, out.score[best])] + pose[..]];
      }
    }

    /** LP_pose_activation: X and Y times 1000, exp(Z) times 1000, and a loop
        mapping each rotation logit to an angle in (-r_max, r_max) degrees,
        given in radians. */
    method PoseActivation(t: Transcendentals, dataIn: seq<real>) returns (dataOut: array<real>)
      requires Lawful(t) && ValidConfig(cfg) && |dataIn| == 6
      ensures fresh(dataOut)
      ensures dataOut[..] == DecodePose(t, cfg, dataIn)
    {
      var config := cfg;
      ghost var pose := DecodePose(t, config, dataIn);
      dataOut := new real[6](_ => 0.0);
      dataOut[0] := dataIn[0] * 1000.0;
      dataOut[1] := dataIn[1] * 1000.0;
      dataOut[2] := t.exp(dataIn[2]) * 1000.0;
      PoseHead(t, config, dataIn);
      for i := 0 to 3
        invariant dataOut.Length == 6
        invariant forall k :: 0 <= k < 3 + i ==> dataOut[k] == pose[k]
      {
        var angle := RotationActivation(t, dataIn, i);
        dataOut[i + 3] := angle;
      }
    }

    /** One pass of the rotation loop of LP_pose_activation: the logit of
        rotation i mapped to (-r_max, r_max) degrees, then to radians. */
    method RotationActivation(t: Transcendentals, dataIn: seq<real>, i: nat) returns (angle: real)
      requires Lawful(t) && ValidConfig(cfg) && |dataIn| == 6 && i < 3
      ensures angle == DecodePose(t, cfg, dataIn)[3 + i]
    {
      var config := cfg;
      var data := (Sigmoid(t, dataIn[i + 3]) - 0.5) * 2.0 * config.lpRMax[i];
      DecodedRotationDegrees(t, config, dataIn, i, data);
      angle := DegToRad(data);
    }
  }
}
