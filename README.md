# YOLO car and licence-plate detector: target encoding, decoding and rendered labels

This project models the numeric core of a YOLO-style detector that finds cars
and their licence plates. It covers three parts of that core:

- **The anchor grid.** This covers the pyramid strides and per-level cell
  counts, and the flat numbering of every anchor slot as `cell * n + anchor`.
  It also covers the anchor boxes in ltrb form (`_get_default_ltrb`) and the
  per-slot decode tables s, y, x, h and w (`_init_syxhw`).
- **Training targets and their inverse.** `_loss_mask` sends each car to the
  slot whose anchor has the highest IoU with it (`_find_best`, via `get_iou`
  in mode 2). It encodes the car's box as inverse-sigmoid centre offsets and
  log size ratios. `_loss_mask_LP` sends each plate to the level-0 cell of its
  pixel position and encodes its 6-D pose (`_find_best_LP`). The inverse side
  is `_yxhw_to_ltrb`, the top-1 selection of `predict` and
  `LP_pose_activation`. Round-trip lemmas tie the two sides together.
- **The car renderer's labels (`render_car.py`).** This covers the viewpoint
  class distribution (`get_label_distribution`) and the box of the scaled and
  rotated car. It also covers the scale and paste bounds, the PASCAL3D+
  annotation readers, and the label row each image of a batch receives.

Helpers from `yolo_gluon.py` are modelled too: `split_render_data`,
`get_iou`, `nd_white_balance`, `nd_inv_sigmoid` and
`nd_label_batch_ltrb2yxhw`.

**How the model represents the code**

- Floats are reals.
- `exp`, `log`, `sin`, `cos` and `arccos` are fields of a `Transcendentals`
  value passed as a parameter. `Numerics.Lawful` states the laws the proofs
  use:
  - `exp` is positive and increasing;
  - `exp` and `log` are inverse to each other;
  - `sin^2 + cos^2 = 1`, `sin 0 = 0` and `cos 0 = 1`;
  - `arccos` is non-negative on [-1, 1].
- Python's `int()` on a float truncates toward zero (`Numerics.Trunc`).
- The code is Python 2, so `360/num_cls` at `render_car.py:274` is integer
  division.
- A Python call that raises is a `Failure` result. An assertion that fails is
  an `ok = false` result.
- The `Yolo.Detector` class holds the state the detector updates in place:
  - the decode tables, as an `array<Slot>`;
  - `all_anchors_ltrb`, as a `seq<Ltrb>`.
- The loops of the core are methods with loop invariants. Each is proved
  against a function of the Grid, Encoder, Decoder or RenderCar modules.
- The target tensors and the renderer's label batch are `array2`s, written
  row by row.

Modules:
- `Numerics` (numerics.dfy): reals, clip, argmax and the transcendental laws.
- `Gluon` (gluon.dfy): box forms, IoU and the `yolo_gluon.py` helpers.
- `Grid` (grid.dfy): strides, cell counts, slot numbering, anchor boxes and
  decode tables.
- `Encoder` (encoder.dfy): best slot, box and pose targets, per-image target
  tensors and score weights.
- `Decoder` (decoder.dfy): box and pose decoding, top-1 prediction and the
  round trips.
- `Yolo` (yolo.dfy): the `Detector` class and its methods.
- `RenderCar` (render.dfy): the renderer's label side.

**Three facts about the code that shape the model:**

- `get_iou` divides 0 by 0 when both boxes have zero area. The model asks
  for a predicted box of positive area, which every anchor has.
- The resample loop of render calls `np.random.randint()` without bounds at
  `render_car.py:113`, which raises; see the Findings below.
- Only the car centre offsets are clipped before the inverse sigmoid
  (`YOLO.py:213`, `YOLO.py:218`). The plate rotations and the log size
  ratios are not, so the model requires them to be in range
  (`Encoder.PlateRow`, `Encoder.CarRow`).

**The two versions of the render labels.** The label side of render takes a
`RenderCar.Version`. `AsWritten` follows the code as written: the label
height carries the stretch r1 twice (`render_car.py:128`, `:149`), and a
first selected record with several cars raises at `render_car.py:113`.
`Intended` follows the corrected code of the Findings: the stretch once,
and the drawn records tried in order until one holds a single car.
`LabelFromRecord`, `ImageLabel`, `RenderImage`, `Labelled`, `BatchRow`,
`Render` and `RenderStep` are stated for either version.

## Model

| member | source | states |
|---|---|---|
| Numerics.Trunc | car_and_LP3/render_car.py:274 | Python `int()` of a float truncates toward zero: for x >= 0, r <= x < r + 1 with r >= 0; for x < 0, r - 1 < x <= r with r <= 0 |
| Numerics.Clip | car_and_LP3/YOLO.py:213 | `nd.clip` lands in [lo, hi]: it is x inside the range, lo below it and hi above it |
| Numerics.ClipInt | car_and_LP3/YOLO.py:258-259 | `np.clip` of the cell column and row: in [lo, hi], k inside, the nearer bound outside |
| Numerics.ArgMax | car_and_LP3/YOLO.py:186 | argmax gives an index holding the largest value and the first such index |
| Numerics.ArgMin | car_and_LP3/render_car.py:250 | argmin gives an index holding the smallest value and the first such index |
| Numerics.ArgMaxUnique | car_and_LP3/YOLO.py:649 | an index that holds the maximum and beats every earlier index is the argmax |
| Numerics.SigmoidStrictlyIncreasing | car_and_LP3/YOLO.py:639 | the sigmoid applied to the scores is strictly increasing |
| Numerics.DivideAll | car_and_LP3/render_car.py:249 | dividing the Gaussian weights by their sum divides every entry and keeps the length |
| Numerics.SumPositive | car_and_LP3/render_car.py:249 | a non-empty vector of positive weights has a positive sum, so the normalisation is defined |
| Numerics.SumDivideAll | car_and_LP3/render_car.py:249 | the sum of the divided weights is the sum divided by the same constant |
| Gluon.ToYxhwToLtrb | yolo_modules/yolo_gluon.py:94-98 | turning (y, x, h, w) into ltrb as get_iou mode 2 does, then back as nd_label_batch_ltrb2yxhw does, gives the same box |
| Gluon.ToLtrbToYxhw | yolo_modules/yolo_gluon.py:291-294 | turning an ltrb box into (y, x, h, w), then back, gives the same box |
| Gluon.IntersectionBounded | yolo_modules/yolo_gluon.py:102-108 | the clipped overlap `iw * ih` is non-negative and at most the area of either well-formed box |
| Gluon.Iou | yolo_modules/yolo_gluon.py:102-111 | the IoU of a positive-area box with a well-formed box lies in [0, 1] |
| Gluon.IouWith | yolo_modules/yolo_gluon.py:108-111 | the IoU, with the target area given separately and at least the overlap, lies in [0, 1] |
| Gluon.IouRatio | yolo_modules/yolo_gluon.py:111 | `inters / (area_p + area_t - inters)` lies in [0, 1] when the overlap is at most both areas |
| Gluon.IouMode2 | yolo_modules/yolo_gluon.py:94-111 | mode 2 builds a well-formed ltrb target from (y, x, h, w), and its result is exactly the IoU with that box, because h * w is that box's area |
| Gluon.TargetOverlap | yolo_modules/yolo_gluon.py:94-110 | the mode-2 target box is well formed with area `target[3] * target[4]`, and the overlap is bounded by both areas |
| Gluon.AreaOfToLtrb | yolo_modules/yolo_gluon.py:95-98 | the ltrb box of (y, x, h, w) has area h * w and is well formed when h, w >= 0 |
| Gluon.IouSymmetric | yolo_modules/yolo_gluon.py:102-111 | IoU(p, q) == IoU(q, p) for positive-area boxes |
| Gluon.IouSelf | yolo_modules/yolo_gluon.py:102-111 | a positive-area box has IoU 1 with itself |
| Gluon.IouDisjoint | yolo_modules/yolo_gluon.py:102-111 | boxes separated along either axis have overlap 0 and IoU 0 |
| Gluon.IouMode1AsWrittenMisscoresIdenticalBox | yolo_modules/yolo_gluon.py:89-110 | mode 1 as written scores the box (0.5, 0.5, 1, 1) against itself 0.25 where the IoU is 1 |
| Gluon.ShardStartMonotone | yolo_modules/yolo_gluon.py:62-63 | shard i ends where shard i + 1 starts, and starts are non-decreasing |
| Gluon.ShardStartBounded | yolo_modules/yolo_gluon.py:62-63 | every shard start is within the batch, and the last end is the batch size |
| Gluon.Shard | yolo_modules/yolo_gluon.py:62-65 | device i receives the slice between `int(i*bs/k)` and `int((i+1)*bs/k)`, which lies within the batch |
| Gluon.SplitRenderData | yolo_modules/yolo_gluon.py:54-68 | one shard per device, shard i as above; with at least one device the shards concatenate back to the batch |
| Gluon.SigmoidOfInvSigmoid | yolo_modules/yolo_gluon.py:278-280 | `sigmoid(-log(1/p - 1)) == p` for 0 < p < 1 |
| Gluon.InvSigmoidOfSigmoid | yolo_modules/yolo_gluon.py:278-280 | `nd_inv_sigmoid(sigmoid(x)) == x` for every x |
| Gluon.LabelBatchLtrbToYxhw | yolo_modules/yolo_gluon.py:288-296 | a fresh array of the batch's shape: fields 0-3 of every object hold (y, x, h, w) of its ltrb fields, and every other field is 0 |
| Gluon.ConvertField | yolo_modules/yolo_gluon.py:291-294 | one slice assignment converts field f of every object and keeps the other fields |
| Gluon.WhiteBalance | yolo_modules/yolo_gluon.py:234-241 | the assertion holds exactly when there are 3 weights and 3 channels. If it holds, channel c of every pixel is multiplied by bgr[c]; otherwise nothing changes |
| Grid.Step | car_and_LP3/YOLO.py:61-64 | the stride `2**(num_downsample - num_levels + 1 + i)` is at least 1 |
| Grid.StepsDouble | car_and_LP3/YOLO.py:64 | each level's stride is twice the previous one |
| Grid.StepsIncrease | car_and_LP3/YOLO.py:64 | strides strictly increase with the level |
| Grid.AreaIsCellCount | car_and_LP3/YOLO.py:66-68 | `int(h*w/step**2)` is rows times columns of the level, each at least 1 |
| Grid.CellCount | car_and_LP3/YOLO.py:68 | when the stride divides h and w, `h*w / step^2 == (h/step) * (w/step)` |
| Grid.CumIncreasing | car_and_LP3/YOLO.py:198-201 | the running sum `a0` of level areas strictly increases |
| Grid.CumMonotone | car_and_LP3/YOLO.py:198-201 | the running sum of level areas never decreases |
| Grid.CumOrder | car_and_LP3/YOLO.py:198-201 | a smaller running sum belongs to an earlier level |
| Grid.LevelFrom | car_and_LP3/YOLO.py:199-203 | the search from level i stops at the level whose area range holds the pixel, with every level passed below it |
| Grid.LevelOf | car_and_LP3/YOLO.py:198-203 | `pyramid_layer` is the first level whose running area sum exceeds the pixel: the pixel lies in that level's range |
| Grid.LevelOfUnique | car_and_LP3/YOLO.py:198-203 | a pixel in level i's range is below the total area and gets level i |
| Grid.SlotIndex | car_and_LP3/YOLO.py:188-189 | `pixel * n + anchor` of a cell on the grid is a slot number below the slot count |
| Grid.PositionOf | car_and_LP3/YOLO.py:188-203 | splitting a slot number into pixel // n, pixel % n and the level gives a grid position whose slot number is the input |
| Grid.PositionOfSlotIndex | car_and_LP3/YOLO.py:188-203 | numbering a grid position and splitting the number again gives the same position |
| Grid.CellInLevel | car_and_LP3/YOLO.py:198-201 | a cell of level l numbers within level l's range of the running area sum |
| Grid.BlockPositionIsSlot | car_and_LP3/YOLO.py:606-612 | entry k of level i's block (`a_start` on) is the slot `a_start * n + k`, at the cell the tiled y, x rows name |
| Grid.BlockSlotIndex | car_and_LP3/YOLO.py:606-612 | entry k of level i's block is a valid position with slot number FirstSlot(i) + k |
| Grid.AnchorBoxCentred | car_and_LP3/YOLO.py:164-176 | every slot's anchor box is centred on its cell, with the anchor's size, well formed and of positive area |
| Grid.BoxAtCentred | car_and_LP3/YOLO.py:164-176 | the anchor box at a grid position is centred at ((row + 0.5) step / H, (col + 0.5) step / W), well formed and of positive area |
| Grid.TableMatchesAnchorBox | car_and_LP3/YOLO.py:595-610 | the decode tables and all_anchors_ltrb agree: the anchor box's centre is (0.5 s + y) / H, (0.5 s + x) / W and its size is (h, w) |
| Grid.TableMatchesBoxAt | car_and_LP3/YOLO.py:595-610 | the same agreement, at a grid position |
| Grid.CellCentre | car_and_LP3/YOLO.py:164 | the arange `step/H/2 + k step/H` is the cell centre (k + 0.5) step / H |
| Grid.LevelBoxes | car_and_LP3/YOLO.py:156-178 | level i contributes area * n anchor boxes |
| Grid.LevelBoxesAreAnchorBoxes | car_and_LP3/YOLO.py:156-181 | level i's boxes are the anchor boxes of slots FirstSlot(i) up to FirstSlot(i + 1), in order |
| Grid.LevelBoxAt | car_and_LP3/YOLO.py:164-178 | box k of level i is the anchor box of slot FirstSlot(i) + k |
| Grid.LevelSlots | car_and_LP3/YOLO.py:612 | `a_start += a` moves to the next level's first slot, within the slot count |
| Grid.LevelTableEntry | car_and_LP3/YOLO.py:606-610 | entry k of level i's block is the table entry of that cell and anchor |
| Grid.TableEntryAsComputed | car_and_LP3/YOLO.py:594-610 | the entry built from the repeated stride, the `arange` rows tiled by `n*x_num` and n, and the tiled anchors is the table entry of slot `a_start*n + k` |
| Encoder.AnchorBoxes | car_and_LP3/YOLO.py:181 | the concatenated LTRB holds one box per slot |
| Encoder.AnchorBoxesByLevel | car_and_LP3/YOLO.py:178-181 | the first i + 1 levels of the concatenation are the first i levels followed by level i's boxes |
| Encoder.AnchorBoxesWellFormed | car_and_LP3/YOLO.py:156-181 | every entry of all_anchors_ltrb is the slot's anchor box, well formed and of positive area |
| Encoder.Ious | car_and_LP3/YOLO.py:185 | get_iou over all anchors gives one IoU in [0, 1] per anchor box |
| Encoder.IousAreIou | car_and_LP3/YOLO.py:185 | the IoU vector at slot k is the IoU of slot k's anchor box with the object's box |
| Encoder.BestSlot | car_and_LP3/YOLO.py:185-189 | the chosen slot has the largest anchor IoU of all slots, and every earlier slot has a strictly smaller one |
| Encoder.EncodeBox | car_and_LP3/YOLO.py:209-222 | sigmoid(ty) and sigmoid(tx) are the clipped centre offsets, within [0.0001, 0.9999]; exp(th) and exp(tw) are the size ratios to the anchor |
| Encoder.EncodeBoxAsComputed | car_and_LP3/YOLO.py:209-222 | the targets as the code computes them, from best_ltrb's centre, the clip, nd_inv_sigmoid and the log ratio, are EncodeBox at the chosen position |
| Encoder.ImageTargets | car_and_LP3/YOLO.py:241-253 | the targets of one image have one entry per slot |
| Encoder.ImageTargetsStep | car_and_LP3/YOLO.py:242-253 | one more row leaves the targets unchanged for a sentinel (class < 0), and otherwise overwrites only the row's best slot with its target |
| Encoder.MaskSetAtChosen | car_and_LP3/YOLO.py:247-248 | a slot some object chooses has mask 1 and score 1 |
| Encoder.ZeroAtUnchosen | car_and_LP3/YOLO.py:234-239 | a slot no object chooses keeps all-zero targets |
| Encoder.LastWriteWins | car_and_LP3/YOLO.py:246-253 | a slot holds the targets of the last object that chose it |
| Encoder.SentinelRowsGiveNoTargets | car_and_LP3/YOLO.py:243-244 | an image whose rows are all sentinels gets all-zero targets |
| Encoder.ScoreWeight | car_and_LP3/YOLO.py:308-320 | the weight vector has the mask's length |
| Encoder.Masks | car_and_LP3/YOLO.py:247 | the mask channel has one entry per slot |
| Encoder.ScoreWeightAtChosen | car_and_LP3/YOLO.py:308-320 | the car score weight at a slot is positive_weight if some object chose it and negative_weight otherwise |
| Encoder.PlateMasks | car_and_LP3/YOLO.py:300 | the plate mask channel has one entry per level-0 cell |
| Encoder.ScoreWeightAtPlateCell | car_and_LP3/YOLO.py:308-320 | the plate score weight at a cell is LP_positive_weight if some plate is assigned to it and LP_negative_weight otherwise |
| Encoder.PlateCell | car_and_LP3/YOLO.py:258-260 | the plate cell `y*32 + x`, with x and y clipped, is one of the 640 cells |
| Encoder.PlateCellContainsPixel | car_and_LP3/YOLO.py:258-260 | for a pixel inside the 512 x 320 grid, the chosen 16-pixel cell contains it |
| Encoder.EncodePose | car_and_LP3/YOLO.py:262-273 | the plate pose target has six entries |
| Encoder.PlateTargets | car_and_LP3/YOLO.py:292-304 | one plate target per level-0 cell, each with lp_num_class class channels |
| Encoder.AddPlate | car_and_LP3/YOLO.py:298-304 | writing one plate keeps the number of cells and the class-channel lengths |
| Encoder.PlateTargetsStep | car_and_LP3/YOLO.py:293-304 | one more row leaves the targets unchanged for a sentinel, and otherwise sets score, mask and pose at the plate's cell and its class channel to 1 |
| Encoder.PlateClassesAccumulate | car_and_LP3/YOLO.py:304 | class channel k of a cell is 1 exactly when some plate of class k chose the cell |
| Encoder.PlateMaskAtChosen | car_and_LP3/YOLO.py:299-300 | score and mask of a cell are 1 exactly when some plate chose it, and 0 otherwise |
| Encoder.PlatePoseLastWriteWins | car_and_LP3/YOLO.py:301-303 | a cell's pose is the pose target of the last plate that chose it |
| Decoder.DecodedCentreInCell | car_and_LP3/YOLO.py:614-620 | whatever the network outputs, the decoded centre lies strictly inside the slot's cell, and the decoded size is positive |
| Decoder.OffsetInCell | car_and_LP3/YOLO.py:616 | a sigmoid offset in (0, 1) keeps `(sg s + y) / H` strictly inside the cell |
| Decoder.CentreRoundTrip | car_and_LP3/YOLO.py:616 | decoding the offset computed at lines 211-212 recovers the object's centre |
| Decoder.AxisRoundTrip | car_and_LP3/YOLO.py:616-617 | the same round trip with the table's stride and cell origin |
| Decoder.OffsetsCentred | car_and_LP3/YOLO.py:211-217 | the encoder's offsets, taken from best_ltrb's centre, are taken from the cell centre |
| Decoder.DecodesTo | car_and_LP3/YOLO.py:614-620 | targets whose sigmoids are the centre offsets and whose exps are the size ratios decode to the box |
| Decoder.DecodeEncodeBox | car_and_LP3/YOLO.py:614-628 | decoding the encoded box at its slot gives the object's (y, x, h, w) back when the offsets were not clipped |
| Decoder.Sigmoids | car_and_LP3/YOLO.py:639 | the sigmoid of the scores keeps their length |
| Decoder.TopSlotIsLargestLogit | car_and_LP3/YOLO.py:639-649 | the slot of the largest sigmoid score is the slot of the largest raw logit |
| Decoder.PredictRecoversObject | car_and_LP3/YOLO.py:647-658 | if the output holds an object's targets at its best slot and scores that slot highest, predict returns the object's centre, size, rotation and class channels |
| Decoder.DecodePose | car_and_LP3/YOLO.py:688-699 | the activated pose has six entries |
| Decoder.DecodedRotationDegrees | car_and_LP3/YOLO.py:696-697 | entry 3 + i is `(sigmoid(r_i) - 0.5) * 2 * LP_r_max[i]` degrees turned into radians |
| Decoder.RotationRoundTrip | car_and_LP3/YOLO.py:696-697 | `(v - 0.5) * 2 * r_max` degrees in radians undoes `r / r_max_rad + 0.5` from line 269 |
| Decoder.RotationInverse | car_and_LP3/YOLO.py:695-697 | decoding the encoded rotation i gives it back |
| Decoder.RotationDecodes | car_and_LP3/YOLO.py:695-697 | activating the encoded pose gives rotation i back |
| Decoder.PositionDecodes | car_and_LP3/YOLO.py:691-693 | activating the encoded pose gives X, Y and Z back |
| Decoder.DecodeEncodePose | car_and_LP3/YOLO.py:688-699 | LP_pose_activation inverts the pose target of _find_best_LP: all six pose entries come back |
| Decoder.PredictPlate | car_and_LP3/YOLO.py:676-681 | a plate prediction has seven entries |
| Decoder.PredictRecoversPlate | car_and_LP3/YOLO.py:676-681 | if the output holds a plate's pose target at its cell and scores that cell highest, predict returns the plate's pose |
| Yolo.Detector.constructor | car_and_LP3/YOLO.py:580-612 | the detector starts with its configuration, no anchor boxes yet and the decode tables built |
| Yolo.Detector.InitSyxhw | car_and_LP3/YOLO.py:580-612 | fresh decode tables hold every slot's table entry |
| Yolo.Detector.InitLevel | car_and_LP3/YOLO.py:592-612 | one level's pass extends the filled prefix of the tables through that level's block |
| Yolo.Detector.LevelEntry | car_and_LP3/YOLO.py:594-610 | the entry computed for block index k is the table entry of slot `a_start*n + k` |
| Yolo.Detector.GetDefaultLtrb | car_and_LP3/YOLO.py:151-182 | all_anchors_ltrb becomes the anchor box of every slot, and the tables are kept |
| Yolo.Detector.FindBest | car_and_LP3/YOLO.py:184-223 | `pixel * n + anchor` is the best-IoU slot, anchor < n, and the box target is EncodeBox at that slot |
| Yolo.Detector.PyramidLevel | car_and_LP3/YOLO.py:198-203 | the loop over running area sums returns the level of the pixel |
| Yolo.Detector.LossMask | car_and_LP3/YOLO.py:225-255 | fresh targets, one row per image and one column per slot, each equal to the image's targets |
| Yolo.Detector.LossMaskImage | car_and_LP3/YOLO.py:241-253 | image b's row becomes its targets, and the other images are unchanged |
| Yolo.Detector.ObjectRowStep | car_and_LP3/YOLO.py:242-253 | one object row extends image b's targets by that row, and other images are unchanged |
| Yolo.Detector.AssignObject | car_and_LP3/YOLO.py:246-253 | only the best slot of image b is written, with the object's target |
| Yolo.Detector.LossMaskLP | car_and_LP3/YOLO.py:276-306 | fresh plate targets, one row per image over the level-0 cells, each equal to the image's plate targets |
| Yolo.Detector.LossMaskImageLP | car_and_LP3/YOLO.py:292-304 | image b's row becomes its plate targets, and the other images are unchanged |
| Yolo.Detector.PlateRowStep | car_and_LP3/YOLO.py:293-304 | one plate row extends image b's plate targets by that row, and other images are unchanged |
| Yolo.Detector.AssignPlate | car_and_LP3/YOLO.py:298-304 | only the plate's cell of image b is written: score 1, mask 1, the pose target, and class channel set to 1 |
| Yolo.Detector.Predict | car_and_LP3/YOLO.py:647-660 | one detection per image, the decoded detection at the slot of highest score |
| Yolo.Detector.PredictPlates | car_and_LP3/YOLO.py:666-684 | one plate prediction per image, the activated pose at the cell of highest score |
| Yolo.Detector.PoseActivation | car_and_LP3/YOLO.py:688-699 | a fresh 6-array holding the activated pose |
| Yolo.Detector.RotationActivation | car_and_LP3/YOLO.py:695-697 | one loop pass computes entry 3 + i of the activated pose |
| RenderCar.Angles | car_and_LP3/render_car.py:242-244 | one great-circle angle per class, the arccos of that class's cosine |
| RenderCar.Gaussians | car_and_LP3/render_car.py:247 | one positive weight `exp(-a^2 / sigma)` per angle |
| RenderCar.CosineInRange | car_and_LP3/render_car.py:242-244 | the argument of arccos lies in [-1, 1] |
| RenderCar.AnglesNonNegative | car_and_LP3/render_car.py:242-244 | every angle is non-negative |
| RenderCar.GaussianOrder | car_and_LP3/render_car.py:247 | a larger non-negative angle has a smaller weight, strictly when strictly larger |
| RenderCar.LabelDistribution | car_and_LP3/render_car.py:225-252 | the class is a valid class index, and the distribution has one entry per class |
| RenderCar.DistributionNormalised | car_and_LP3/render_car.py:247-249 | the distribution is positive and sums to 1 |
| RenderCar.Normalised | car_and_LP3/render_car.py:249 | positive weights divided by their sum are positive and sum to 1 |
| RenderCar.ClassIsMostLikely | car_and_LP3/render_car.py:247-250 | the class of smallest angle (argmin) is the class of largest probability (argmax) |
| RenderCar.Corners | car_and_LP3/render_car.py:159-163 | four rotated corners |
| RenderCar.RotatedCorners | car_and_LP3/render_car.py:159-163 | the double loop appends the corners in order left-top, left-bottom, right-top, right-bottom, each rotated by r |
| RenderCar.Lowest | car_and_LP3/render_car.py:169 | `np.amin` is a lower bound that some entry attains |
| RenderCar.Highest | car_and_LP3/render_car.py:170 | `np.amax` is an upper bound that some entry attains |
| RenderCar.RotatedBoxHoldsCorners | car_and_LP3/render_car.py:165-170 | the rotated box is well formed, contains every shifted corner, and each of its edges touches one |
| RenderCar.UnrotatedExtent | car_and_LP3/render_car.py:165-166 | without rotation the extent is (abs(w), abs(h)) |
| RenderCar.RotateByZero | car_and_LP3/render_car.py:162 | rotating by 0 leaves a corner in place |
| RenderCar.UnrotatedCorners | car_and_LP3/render_car.py:159-163 | without rotation the corners are the box's own corners |
| RenderCar.UnrotatedBox | car_and_LP3/render_car.py:153-170 | without rotation the rotated box is the resized box shifted by half the image extent |
| RenderCar.ScaleKeepsBoxInImage | car_and_LP3/render_car.py:130-136 | a scale between min_scale and max_scale sizes the box to 20%-90% of the image along both axes |
| RenderCar.ScaleRangeNonEmpty | car_and_LP3/render_car.py:130-136 | min_scale <= max_scale exactly when the box's aspect ratio is within a factor 4.5 of the image's |
| RenderCar.ResizedLabelMatchesCorners | car_and_LP3/render_car.py:148-156 | with r1 applied once, the label width and height are those of the pasted corners |
| RenderCar.ResizeAsWrittenMislabelsHeight | car_and_LP3/render_car.py:128-156 | as written, a 10-pixel box with r1 = 1.1 is pasted 11 pixels high but labelled 12.1 |
| RenderCar.AsWrittenStretchesHeightTwice | car_and_LP3/render_car.py:128-156 | as written, the image size, the corners and the label width are those of the corrected resize, and the label height is r1 times the corrected one |
| RenderCar.PasteKeepsBoxMostlyVisible | car_and_LP3/render_car.py:183-189 | a paste offset within randint's bounds leaves less than 30% of the box (plus a pixel) before the image and 70% inside |
| RenderCar.TruncAll | car_and_LP3/render_car.py:302 | `[int(i) for i in box]` truncates every coordinate |
| RenderCar.AzimuthClassBounds | car_and_LP3/render_car.py:274-276 | the class is at most num_cls - 1, and non-negative for a non-negative azimuth |
| RenderCar.AzimuthBins | car_and_LP3/render_car.py:274-276 | with 24 classes, class k < 23 is exactly the azimuths in [15k - 7.5, 15k + 7.5), and azimuths from 337.5 on fall in class 23 |
| RenderCar.Pascal3dLabel | car_and_LP3/render_car.py:254-289 | the loop over the record's objects returns the first class and box, skipping unless there is exactly one car. It raises on no objects, num_cls = 0 and a short box |
| RenderCar.AziEleSkipsSeveralCars | car_and_LP3/render_car.py:291-309 | a record is skipped exactly when it has several cars and raises exactly when it has none. Otherwise it gives its car's elevation, azimuth and truncated box |
| RenderCar.SkipRulesAgree | car_and_LP3/render_car.py:281-300 | both readers raise on an empty record and, where both return, skip the same records |
| RenderCar.FirstUsable | car_and_LP3/render_car.py:107-113 | a picked record is an index of the dataset |
| RenderCar.FirstUsableHasOneCar | car_and_LP3/render_car.py:107-113 | the picked record has exactly one car, its reading is the pick's view, and every candidate tried before it had several cars |
| RenderCar.PickRecordAsWrittenRaisesOnTwoCars | car_and_LP3/render_car.py:107-113 | as written, a two-car first pick raises where the intended loop goes on to the next one-car record |
| RenderCar.PicksAgreeUnlessFirstSkipped | car_and_LP3/render_car.py:107-113 | the loop as written and the intended loop pick the same record when the first selected record has at most one car; when it has several, the loop as written raises and the intended loop goes on with the rest of the drawn records |
| RenderCar.PickRecord | car_and_LP3/render_car.py:107-113 | the intended resample loop (Finding 3) returns the first drawn record with one car, or the failure |
| RenderCar.UniformInRange | car_and_LP3/render_car.py:142 | `uniform(low, high)` of a unit draw lies in [low, high) when low < high |
| RenderCar.LabelFromRecord | car_and_LP3/render_car.py:115-217 | in either version, a label row has 6 + num_cls entries |
| RenderCar.PastedLabel | car_and_LP3/render_car.py:183-217 | a row built from the pasted box has 6 + num_cls entries |
| RenderCar.PastedLabelScalesHeight | car_and_LP3/render_car.py:149-217 | label heights in the ratio r1 give rows that raise alike and differ only in the height entry, by the factor r1: with AsWrittenStretchesHeightTwice, the label as written is the corrected one with its height multiplied by r1 |
| RenderCar.ImageLabel | car_and_LP3/render_car.py:106-217 | in either version, a label row has 6 + num_cls entries |
| RenderCar.LabelClassIsMostLikely | car_and_LP3/render_car.py:209-216 | the row's distribution sums to 1, and its class field is the argmax of that distribution |
| RenderCar.UnrotatedLabelSize | car_and_LP3/render_car.py:147-180 | with the corrected resize (Finding 2) and without rotation, the label's h and w are the height and width of the box actually pasted |
| RenderCar.RenderImage | car_and_LP3/render_car.py:106-217 | the loop body picks the record and labels it, as ImageLabel does in the same version |
| RenderCar.Sentinel | car_and_LP3/render_car.py:97 | the all -1 row has the given length |
| RenderCar.BatchRow | car_and_LP3/render_car.py:97-217 | every image's row has 6 + num_cls entries |
| RenderCar.SkippedRowIsSentinel | car_and_LP3/render_car.py:103-104 | an image the gate skips keeps the all -1 row |
| RenderCar.LabelledRow | car_and_LP3/render_car.py:209-217 | an image that passes the gate and labels gets its label row |
| RenderCar.Render | car_and_LP3/render_car.py:95-217 | a fresh bs x (6 + num_cls) label batch. The call returns exactly when every image is skipped or labelled in the given version; then each row is -1 for a skipped image and the label otherwise. As written, an image whose first selected record has several cars raises |
| RenderCar.RenderStep | car_and_LP3/render_car.py:102-217 | one loop pass reports whether image i is skipped or labelled and, if so, writes its row only |
| RenderCar.WriteRow | car_and_LP3/render_car.py:217 | `label_batch[i] = label` writes row i and no other |

## Left out

- Images, masks, backgrounds and augmenters are not modelled; only labels are. This covers `PIL` open, resize and paste, the alpha mask, `augs`, and the compositing at `render_car.py:194-220`.
- The raw-car branch of render is not modelled. It parses angles from file names, uses fixed scale bounds and takes boxes from `getbbox` (`render_car.py:117-119`, `138-140`, `172-177`). It depends on image contents.
- Reading `.mat` files and splitting paths is not modelled. A record is given as its list of objects (box, azimuth, elevation).
- The `print` at `render_car.py:273` is left out. It is output only.
- Every random draw is a parameter (`Draw`): the gate, the record indices, the unit draws behind r1 and the resize factor, the enhancer's rotation and the paste offsets. `pil_image_enhance` itself is not modelled.
- RenderCar.LabelFromRecord: the paste offsets are not constrained to randint's range. `PasteKeepsBoxMostlyVisible` states what an offset within the range gives.
- RenderCar.UnrotatedLabelSize: holds for the corrected resize only. As written the label height is r1 times the pasted height (`AsWrittenStretchesHeightTwice`).
- RenderCar.PickRecord: the loop method is the intended retry only. The version as written stops at the first selected record and is the function `PickRecordAsWritten`, which `RenderImage` calls directly.
- RenderCar.Uniform: numpy's `uniform` with low > high is left as the same formula. `UniformInRange` covers only low < high.
- The label batch's object axis of size 1 is dropped: render writes one row per image.
- RenderCar.LabelDistribution: only `sigma = 0.1`, the value render passes, is used. The lemmas hold for every positive sigma.
- RenderCar.Pascal3dAziEle: elevation and azimuth go to `get_label_distribution` as read from the record, as in the source. The units the annotation files store them in are not modelled.
- Devices are not modelled. There is one copy of all_anchors_ltrb instead of one per device, and `gpu_index` and `ctx` are dropped.
- The five decode tensors s, y, x, h and w are one `array<Slot>` of records. The six target tensors of `_loss_mask` are one `array2<SlotTarget>`, and the six plate tensors are one `array2<PlateTarget>`.
- The network forward pass (`self.net`, the executor) is not modelled. Its outputs are the parameters of `Predict` and `PredictPlates`.
- Yolo.Detector.Predict: the slot of highest score is decoded directly, instead of decoding every slot and then picking one. The value is the same.
- Yolo.Detector.FindBest: requires exactly three pyramid levels, as the source's assertion at `YOLO.py:194` hard-codes `area[0..2]`. With fewer than three levels the source raises; with more it fails whenever the best cell lies past level 2, and otherwise goes on. Yolo.Detector.LossMask, LossMaskImage, ObjectRowStep and AssignObject call it and carry the same requirement.
- Encoder.PlateRow: requires the class `L[-1]` of a plate to be a whole index below lp_num_class. The source's class-channel write at `YOLO.py:304` fails on an index out of range; that error path is not modelled, and nor is an index that is not whole or negative.
- Encoder.PlateTargets: the plate rows must satisfy `Encoder.PlateRow`, so the failure of `YOLO.py:304` on an out-of-range class is not modelled.
- Yolo.Detector.LossMaskLP: the plate rows must satisfy `Encoder.PlateRow`, so the failure of `YOLO.py:304` on an out-of-range class is not modelled.
- Yolo.Detector.LossMaskLP: requires level 0 to have at least the 32 x 20 plate cells. A smaller grid makes the source index out of bounds.
- Yolo.Detector.LossMask: the inner loop passes are factored into `ObjectRowStep` and `AssignObject`, and those of `LossMaskLP` into `PlateRowStep` and `AssignPlate`. Their contracts are the loop invariant's step.
- Encoder.EncodeBox: requires a positive object height and width. The source's log of a non-positive ratio gives NaN or -inf, which the model does not represent.
- Encoder.EncodePose: requires a positive depth and rotations strictly inside the r_max range. Otherwise the source's log and inverse sigmoid are not finite.
- Gluon.Iou: requires a positive-area predicted box. The source divides by zero for two empty boxes.
- `get_iou` with a mode other than 1 or 2 is not modelled. It prints and then fails on undefined names, and the core calls only mode 2.
- Floating-point rounding, float32 arithmetic and NaN are not modelled.
- `exp`, `log`, `sin`, `cos` and `arccos` are parameters constrained by the laws listed above.
- Gluon.LabelBatchLtrbToYxhw: requires at least four fields per object. On a batch with fewer the source raises at `label_batch[:, :, 3]` (`yolo_gluon.py:290-293`); that error path is not modelled.
- Gluon.WhiteBalance: the failed assertion is the `ok = false` result with nothing changed, instead of an exception.

## Findings

| source | as written | input that shows it | evidently intended | confidence | as-written member | corrected member |
|---|---|---|---|---|---|---|
| yolo_modules/yolo_gluon.py:110 | in mode 1 the target is (class, l, t, r, b), but its area is still `target[3] * target[4]`, that is r * b | predict = target = (0.5, 0.5, 1, 1): the result is 0.25 / (0.25 + 1 - 0.25) = 0.25 | area (r - l) * (b - t), so a box has IoU 1 with itself | high; not executed | Gluon.IouMode1AsWritten, Gluon.IouMode1AsWrittenMisscoresIdenticalBox | Gluon.Iou, Gluon.IouSelf |
| car_and_LP3/render_car.py:149 | `box_h`, already `(b - t) * r1` from line 128, is multiplied by r1 a second time | box (0, 0, 10, 10), resize 1, r1 = 1.1: the pasted box is 11 pixels high but labelled 12.1 | label height `resize * (b - t) * r1`, the height of the pasted box | high; not executed | RenderCar.ResizeAsWritten, RenderCar.ResizeAsWrittenMislabelsHeight | RenderCar.Resize, RenderCar.ResizedLabelMatchesCorners |
| car_and_LP3/render_car.py:113 | the resample loop draws the next record with `np.random.randint()` without bounds, which raises a TypeError | the first selected record holds two cars | draw another record and retry until one has exactly one car | high; not executed | RenderCar.PickRecordAsWritten, RenderCar.PickRecordAsWrittenRaisesOnTwoCars | RenderCar.FirstUsable, RenderCar.FirstUsableHasOneCar |
