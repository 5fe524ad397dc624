/** The anchor grid of the car detector (car_and_LP3/YOLO.py): pyramid
    strides, per-level cell counts, the flat slot index, the anchor boxes in
    ltrb form and the per-slot decode tables. A slot is one anchor of one cell
    of one pyramid level; all slots of an image are numbered
    `cell * n + anchor`, cells running over level 0, then level 1, ..., each
    level row-major. */
module Grid {
  import opened Numerics
  import opened Gluon

  /** An anchor's height and width, as fractions of the image size. */
  datatype Anchor = Anchor(h: real, w: real)

  /** The part of the detector's configuration that the core reads. */
  datatype Config = Config(
    height: nat,                 // size[0], pixels
    width: nat,                  // size[1], pixels
    numDownsample: nat,          // len(layers)
    anchors: seq<seq<Anchor>>,   // all_anchors: one row of anchors per level
    numClass: nat,
    positiveWeight: real,
    negativeWeight: real,
    lpPositiveWeight: real,
    lpNegativeWeight: real,
    lpRMax: seq<real>,           // LP_r_max, degrees
    lpNumClass: nat)

  function Pow2(k: nat): (r: nat)
    ensures r >= 1
  {
    if k == 0 then 1 else 2 * Pow2(k - 1)
  }

  function NumLevels(cfg: Config): nat {
    |cfg.anchors|
  }

  /** There are no more pyramid levels than downsampling stages plus one, so
      that the first stride is a whole power of two. */
  predicate LevelsFit(cfg: Config) {
    NumLevels(cfg) <= cfg.numDownsample + 1
  }

  /** The stride of level i: 2^(num_downsample - num_levels + 1 + i). */
  function Step(cfg: Config, i: nat): (step: nat)
    requires LevelsFit(cfg)
    ensures step >= 1
  {
    Pow2(cfg.numDownsample - NumLevels(cfg) + 1 + i)
  }

  /** Division of naturals (Python 2 `/` on non-negative ints). */
  function NatDiv(a: nat, b: nat): nat
    requires b >= 1
  {
    a / b
  }

  /** `int(h * w / step ** 2)`: integer division, as in Python 2. */
  function LevelArea(cfg: Config, i: nat): nat
    requires LevelsFit(cfg)
  {
    NatDiv(cfg.height * cfg.width, Step(cfg, i) * Step(cfg, i))
  }

  /** Cell rows and columns of level i. */
  function Rows(cfg: Config, i: nat): nat
    requires LevelsFit(cfg)
  {
    NatDiv(cfg.height, Step(cfg, i))
  }

  function Cols(cfg: Config, i: nat): nat
    requires LevelsFit(cfg)
  {
    NatDiv(cfg.width, Step(cfg, i))
  }

  /** What the code needs of its configuration: a positive image size that
      every stride divides (otherwise the arange/reshape calls that build the
      grid fail), at least one level, the same positive number of anchors per
      level (all_anchors is one rectangular array), anchors of positive size
      (the size target is a log ratio to them), and three non-zero maximum
      plate rotations. */
  predicate ValidConfig(cfg: Config) {
    && cfg.height > 0 && cfg.width > 0
    && 1 <= NumLevels(cfg) && LevelsFit(cfg)
    && |cfg.anchors[0]| >= 1
    && (forall i :: 0 <= i < |cfg.anchors| ==> |cfg.anchors[i]| == |cfg.anchors[0]|)
    && (forall i, j :: 0 <= i < |cfg.anchors| && 0 <= j < |cfg.anchors[i]| ==>
          cfg.anchors[i][j].h > 0.0 && cfg.anchors[i][j].w > 0.0)
    && (forall i :: 0 <= i < |cfg.anchors| ==> StepDivides(cfg, i))
    && |cfg.lpRMax| == 3
    && (forall k :: 0 <= k < 3 ==> cfg.lpRMax[k] != 0.0)
  }

  /** The stride of level i divides the image height and width. */
  predicate StepDivides(cfg: Config, i: nat)
    requires LevelsFit(cfg)
  {
    cfg.height % Step(cfg, i) == 0 && cfg.width % Step(cfg, i) == 0
  }

  /** Anchors per cell, n = len(all_anchors[0]). */
  function NumAnchors(cfg: Config): nat
    requires NumLevels(cfg) >= 1
  {
    |cfg.anchors[0]|
  }

  /** Strides double from one level to the next ... */
  lemma StepsDouble(cfg: Config, i: nat)
    requires LevelsFit(cfg)
    ensures Step(cfg, i + 1) == 2 * Step(cfg, i)
  {
  }

  /** ... so they strictly increase. */
  lemma {:induction false} StepsIncrease(cfg: Config, i: nat, j: nat)
    requires LevelsFit(cfg) && i < j
    ensures Step(cfg, i) < Step(cfg, j)
  {
    StepsDouble(cfg, j - 1);
    if i < j - 1 {
      StepsIncrease(cfg, i, j - 1);
    }
  }

  /** Level i has (H / step) * (W / step) cells, at least one. */
  lemma AreaIsCellCount(cfg: Config, i: nat)
    requires ValidConfig(cfg) && i < NumLevels(cfg)
    ensures LevelArea(cfg, i) == Rows(cfg, i) * Cols(cfg, i)
    ensures Rows(cfg, i) >= 1 && Cols(cfg, i) >= 1
    ensures LevelArea(cfg, i) >= 1
  {
    assert StepDivides(cfg, i);
    CellCount(cfg.height, cfg.width, Step(cfg, i));
  }

  lemma CellCount(hh: nat, ww: nat, s: nat)
    requires s >= 1 && hh > 0 && ww > 0 && hh % s == 0 && ww % s == 0
    ensures NatDiv(hh * ww, s * s) == NatDiv(hh, s) * NatDiv(ww, s)
    ensures NatDiv(hh, s) >= 1 && NatDiv(ww, s) >= 1
    ensures NatDiv(hh * ww, s * s) >= 1
  {
    var r, c := hh / s, ww / s;
    assert hh == r * s;
    assert ww == c * s;
    assert hh * ww == (r * c) * (s * s);
    DivModUnique(hh * ww, s * s, r * c, 0);
    MulAtLeast(r, c);
  }

  /** Cells in the levels before level i: a0 before level i in _find_best,
      a_start in _get_default_ltrb and _init_syxhw. */
  function Cum(cfg: Config, i: nat): nat
    requires LevelsFit(cfg) && i <= NumLevels(cfg)
  {
    if i == 0 then 0 else Cum(cfg, i - 1) + LevelArea(cfg, i - 1)
  }

  /** sum(area): cells over all levels. */
  function TotalArea(cfg: Config): nat
    requires LevelsFit(cfg)
  {
    Cum(cfg, NumLevels(cfg))
  }

  /** Slots per image, sum(area) * n. */
  function SlotCount(cfg: Config): nat
    requires LevelsFit(cfg) && NumLevels(cfg) >= 1
  {
    TotalArea(cfg) * NumAnchors(cfg)
  }

  /** The first slot of level i, a_start * n. */
  function FirstSlot(cfg: Config, i: nat): nat
    requires LevelsFit(cfg) && NumLevels(cfg) >= 1 && i <= NumLevels(cfg)
  {
    Cum(cfg, i) * NumAnchors(cfg)
  }

  lemma {:induction false} CumIncreasing(cfg: Config, i: nat, j: nat)
    requires ValidConfig(cfg) && i < j <= NumLevels(cfg)
    ensures Cum(cfg, i) < Cum(cfg, j)
  {
    AreaIsCellCount(cfg, j - 1);
    if i < j - 1 {
      CumIncreasing(cfg, i, j - 1);
    }
  }

  lemma CumMonotone(cfg: Config, i: nat, j: nat)
    requires ValidConfig(cfg) && i <= j <= NumLevels(cfg)
    ensures Cum(cfg, i) <= Cum(cfg, j)
  {
    if i < j {
      CumIncreasing(cfg, i, j);
    }
  }

  /** The level scan of _find_best from level i on. */
  function LevelFrom(cfg: Config, p: nat, i: nat): (level: nat)
    requires ValidConfig(cfg) && i < NumLevels(cfg) && Cum(cfg, i) <= p < TotalArea(cfg)
    ensures i <= level < NumLevels(cfg)
    ensures Cum(cfg, level) <= p < Cum(cfg, level + 1)
    ensures forall k :: i < k <= level ==> Cum(cfg, k) <= p
    decreases NumLevels(cfg) - i
  {
    if p < Cum(cfg, i + 1) then i else LevelFrom(cfg, p, i + 1)
  }

  /** The pyramid level of cell p: the first level whose cumulative cell count
      exceeds p. */
  function LevelOf(cfg: Config, p: nat): (level: nat)
    requires ValidConfig(cfg) && p < TotalArea(cfg)
    ensures level < NumLevels(cfg)
    ensures Cum(cfg, level) <= p < Cum(cfg, level + 1)
    ensures forall k :: 0 < k <= level ==> Cum(cfg, k) <= p
  {
    LevelFrom(cfg, p, 0)
  }

  /** The level holding a cell is unique: the cells of the levels are the
      consecutive ranges [Cum(i), Cum(i + 1)). */
  lemma LevelOfUnique(cfg: Config, p: nat, i: nat)
    requires ValidConfig(cfg) && i < NumLevels(cfg)
    requires Cum(cfg, i) <= p < Cum(cfg, i + 1)
    ensures p < TotalArea(cfg)
    ensures LevelOf(cfg, p) == i
  {
    CumMonotone(cfg, i + 1, NumLevels(cfg));
    var l := LevelOf(cfg, p);
    CumOrder(cfg, l, i + 1);
    CumOrder(cfg, i, l + 1);
  }

  /** Cum is strictly increasing, so it reflects order. */
  lemma CumOrder(cfg: Config, a: nat, b: nat)
    requires ValidConfig(cfg) && a <= NumLevels(cfg) && b <= NumLevels(cfg)
    requires Cum(cfg, a) < Cum(cfg, b)
    ensures a < b
  {
    if b <= a {
      CumMonotone(cfg, b, a);
    }
  }

  /** Where a slot sits: its level, the row and column of its cell within the
      level, and its anchor. */
  datatype Position = Position(level: nat, row: nat, col: nat, anchor: nat)

  /** A position names an existing level and anchor; its row and column may
      lie anywhere. The anchor box and table entry formulas need no more. */
  predicate OnGrid(cfg: Config, pos: Position)
    requires ValidConfig(cfg)
  {
    pos.level < NumLevels(cfg) && pos.anchor < NumAnchors(cfg)
  }

  /** A position of an actual slot: its cell lies inside its level. */
  predicate ValidPosition(cfg: Config, pos: Position)
    requires ValidConfig(cfg)
  {
    && OnGrid(cfg, pos)
    && pos.row < Rows(cfg, pos.level)
    && pos.col < Cols(cfg, pos.level)
  }

  /** The flat index of a slot. */
  function SlotIndex(cfg: Config, pos: Position): (e: nat)
    requires ValidConfig(cfg) && ValidPosition(cfg, pos)
    ensures e < SlotCount(cfg)
  {
    var l := pos.level;
    AreaIsCellCount(cfg, l);
    CumMonotone(cfg, l + 1, NumLevels(cfg));
    SlotBound(Cum(cfg, l), LevelArea(cfg, l), TotalArea(cfg), pos.row, pos.col,
              Rows(cfg, l), Cols(cfg, l), pos.anchor, NumAnchors(cfg));
    (Cum(cfg, l) + (pos.row * Cols(cfg, l) + pos.col)) * NumAnchors(cfg) + pos.anchor
  }

  /** A slot index stays below the slot count: cell (cum + row * cols + col)
      of a level [cum, cum + rows * cols) inside [0, total), anchor below n. */
  lemma SlotBound(cum: nat, area: nat, total: nat, row: nat, col: nat,
                  rows: nat, cols: nat, anchor: nat, n: nat)
    requires area == rows * cols && cum + area <= total
    requires row < rows && col < cols && anchor < n
    ensures 0 <= (cum + (row * cols + col)) * n + anchor < total * n
  {
    MixedRadixBound(row, col, rows, cols);
    MixedRadixBound(cum + (row * cols + col), anchor, total, n);
  }

  /** Decodes a flat slot index: cell = e div n, anchor = e mod n, the level
      of the cell, then row and column within the level. Every slot has a
      valid position and is that position's index. */
  function PositionOf(cfg: Config, e: nat): (pos: Position)
    requires ValidConfig(cfg) && e < SlotCount(cfg)
    ensures ValidPosition(cfg, pos)
    ensures SlotIndex(cfg, pos) == e
  {
    var n := NumAnchors(cfg);
    DivBound(e, TotalArea(cfg), n);
    var l := LevelOf(cfg, e / n);
    AreaIsCellCount(cfg, l);
    var local := e / n - Cum(cfg, l);
    CellDigits(e, n, Cum(cfg, l), local, LevelArea(cfg, l), Rows(cfg, l), Cols(cfg, l));
    Position(l, local / Cols(cfg, l), local % Cols(cfg, l), e % n)
  }

  /** Splitting e into cell e / n and anchor e % n, and the cell's offset
      `local` within its level into row and column, loses nothing. */
  lemma CellDigits(e: nat, n: nat, cum: nat, local: int, area: nat, rows: nat, cols: nat)
    requires n >= 1 && cols >= 1 && area == rows * cols
    requires local == e / n - cum && 0 <= local < area
    ensures 0 <= local / cols < rows && 0 <= local % cols < cols && e % n < n
    ensures (cum + (local / cols * cols + local % cols)) * n + e % n == e
  {
    DivBound(local, rows, cols);
    DivMod(local, cols);
    DivMod(e, n);
  }

  /** ... and a valid position is the one its index decodes to, so slots and
      positions are in one-to-one correspondence. */
  lemma PositionOfSlotIndex(cfg: Config, pos: Position)
    requires ValidConfig(cfg) && ValidPosition(cfg, pos)
    ensures PositionOf(cfg, SlotIndex(cfg, pos)) == pos
  {
    var l, n, cols := pos.level, NumAnchors(cfg), Cols(cfg, pos.level);
    var e := SlotIndex(cfg, pos);
    var local := pos.row * cols + pos.col;
    var cell := Cum(cfg, l) + local;
    assert e == cell * n + pos.anchor;
    DivModUnique(e, n, cell, pos.anchor);
    CellInLevel(cfg, pos);
    LevelOfUnique(cfg, cell, l);
    DivModUnique(local, cols, pos.row, pos.col);
    PositionOfParts(cfg, e, l, local, pos.row, pos.col, pos.anchor);
  }

  /** The cell of a valid position lies in its level's range of cells. */
  lemma CellInLevel(cfg: Config, pos: Position)
    requires ValidConfig(cfg) && ValidPosition(cfg, pos)
    ensures var l := pos.level;
      Cum(cfg, l) <= Cum(cfg, l) + (pos.row * Cols(cfg, l) + pos.col) < Cum(cfg, l + 1)
  {
    var l := pos.level;
    AreaIsCellCount(cfg, l);
    MixedRadixBound(pos.row, pos.col, Rows(cfg, l), Cols(cfg, l));
  }

  /** PositionOf assembled from the parts it computes. */
  lemma PositionOfParts(cfg: Config, e: nat, l: nat, local: int, row: nat, col: nat, anchor: nat)
    requires ValidConfig(cfg) && e < SlotCount(cfg) && l < NumLevels(cfg) && Cols(cfg, l) >= 1
    requires e / NumAnchors(cfg) < TotalArea(cfg) && LevelOf(cfg, e / NumAnchors(cfg)) == l
    requires local == e / NumAnchors(cfg) - Cum(cfg, l)
    requires local / Cols(cfg, l) == row && local % Cols(cfg, l) == col
    requires e % NumAnchors(cfg) == anchor
    ensures PositionOf(cfg, e) == Position(l, row, col, anchor)
  {
  }

  /** The k-th slot of level i's block, in the order the arange/tile calls of
      _get_default_ltrb and _init_syxhw lay it out: k = (row * cols + col) *
      n + anchor. */
  function BlockPosition(cfg: Config, i: nat, k: nat): Position
    requires ValidConfig(cfg) && i < NumLevels(cfg)
  {
    AreaIsCellCount(cfg, i);
    var n := NumAnchors(cfg);
    Position(i, k / n / Cols(cfg, i), (k / n) % Cols(cfg, i), k % n)
  }

  /** The k-th slot of level i's block is slot Cum(i) * n + k of the image. */
  lemma BlockPositionIsSlot(cfg: Config, i: nat, k: nat)
    requires ValidConfig(cfg) && i < NumLevels(cfg)
    requires k < LevelArea(cfg, i) * NumAnchors(cfg)
    ensures ValidPosition(cfg, BlockPosition(cfg, i, k))
    ensures SlotIndex(cfg, BlockPosition(cfg, i, k)) == FirstSlot(cfg, i) + k
    ensures PositionOf(cfg, FirstSlot(cfg, i) + k) == BlockPosition(cfg, i, k)
  {
    BlockSlotIndex(cfg, i, k);
    PositionOfSlotIndex(cfg, BlockPosition(cfg, i, k));
  }

  lemma BlockSlotIndex(cfg: Config, i: nat, k: nat)
    requires ValidConfig(cfg) && i < NumLevels(cfg)
    requires k < LevelArea(cfg, i) * NumAnchors(cfg)
    ensures ValidPosition(cfg, BlockPosition(cfg, i, k))
    ensures SlotIndex(cfg, BlockPosition(cfg, i, k)) == FirstSlot(cfg, i) + k
  {
    AreaIsCellCount(cfg, i);
    BlockDigits(k, NumAnchors(cfg), LevelArea(cfg, i), Rows(cfg, i), Cols(cfg, i), Cum(cfg, i));
  }

  /** The digits (row, col, anchor) of k in the mixed radix (rows, cols, n)
      are in range and rebuild k, offset by a block start cum. */
  lemma BlockDigits(k: nat, n: nat, area: nat, rows: nat, cols: nat, cum: nat)
    requires n >= 1 && cols >= 1 && area == rows * cols && k < area * n
    ensures k / n / cols < rows && (k / n) % cols < cols && k % n < n
    ensures (cum + (k / n / cols * cols + (k / n) % cols)) * n + k % n == cum * n + k
  {
    DivBound(k, area, n);
    var c := k / n;
    DivBound(c, rows, cols);
    DivMod(c, cols);
    DivMod(k, n);
    assert c / cols * cols + c % cols == c;
    assert (cum + c) * n + k % n == cum * n + (c * n + k % n);
  }

  /** The anchor box of a position in image-fraction ltrb form: centre
      (step/H/2 + row * step/H, step/W/2 + col * step/W), the level's anchor
      size around it (top = y - h/2, bottom = y + h/2, and so on). */
  function BoxAt(cfg: Config, pos: Position): Ltrb
    requires ValidConfig(cfg) && OnGrid(cfg, pos)
  {
    var step := Step(cfg, pos.level) as real;
    var hh, ww := cfg.height as real, cfg.width as real;
    var cy := step / hh / 2.0 + pos.row as real * (step / hh);
    var cx := step / ww / 2.0 + pos.col as real * (step / ww);
    var a := cfg.anchors[pos.level][pos.anchor];
    ToLtrb(Yxhw(cy, cx, a.h, a.w))
  }

  /** The anchor box of slot e. */
  function AnchorBox(cfg: Config, e: nat): Ltrb
    requires ValidConfig(cfg) && e < SlotCount(cfg)
  {
    BoxAt(cfg, PositionOf(cfg, e))
  }

  /** The cell-centred box of a position: centre ((row + 0.5) * step / H,
      (col + 0.5) * step / W), the size of the level's anchor. */
  function CellBox(cfg: Config, pos: Position): Yxhw
    requires ValidConfig(cfg) && OnGrid(cfg, pos)
  {
    var step := Step(cfg, pos.level) as real;
    var a := cfg.anchors[pos.level][pos.anchor];
    Yxhw((pos.row as real + 0.5) * step / cfg.height as real,
         (pos.col as real + 0.5) * step / cfg.width as real, a.h, a.w)
  }

  /** Every anchor box is centred on its cell, has the size of the level's
      anchor, and has positive area. */
  lemma AnchorBoxCentred(cfg: Config, e: nat)
    requires ValidConfig(cfg) && e < SlotCount(cfg)
    ensures ToYxhw(AnchorBox(cfg, e)) == CellBox(cfg, PositionOf(cfg, e))
    ensures WellFormed(AnchorBox(cfg, e)) && Area(AnchorBox(cfg, e)) > 0.0
  {
    BoxAtCentred(cfg, PositionOf(cfg, e));
  }

  lemma BoxAtCentred(cfg: Config, pos: Position)
    requires ValidConfig(cfg) && OnGrid(cfg, pos)
    ensures ToYxhw(BoxAt(cfg, pos)) == CellBox(cfg, pos)
    ensures WellFormed(BoxAt(cfg, pos)) && Area(BoxAt(cfg, pos)) > 0.0
  {
    var a := cfg.anchors[pos.level][pos.anchor];
    assert a.h > 0.0 && a.w > 0.0;
    CentredBox(BoxAt(cfg, pos), CellBox(cfg, pos), Step(cfg, pos.level) as real, cfg.height as real, cfg.width as real,
               pos.row as real, pos.col as real, a.h, a.w);
  }

  lemma CentredBox(box: Ltrb, cell: Yxhw, step: real, hh: real, ww: real,
                   row: real, col: real, h: real, w: real)
    requires hh > 0.0 && ww > 0.0 && h > 0.0 && w > 0.0
    requires box == ToLtrb(Yxhw(step / hh / 2.0 + row * (step / hh),
                                step / ww / 2.0 + col * (step / ww), h, w))
    requires cell == Yxhw((row + 0.5) * step / hh, (col + 0.5) * step / ww, h, w)
    ensures ToYxhw(box) == cell && WellFormed(box) && Area(box) > 0.0
  {
    var c := Yxhw(step / hh / 2.0 + row * (step / hh), step / ww / 2.0 + col * (step / ww), h, w);
    CellCentre(step, hh, row);
    CellCentre(step, ww, col);
    ToYxhwToLtrb(c);
    AreaOfToLtrb(c);
    assert h * w > 0.0;
  }

  lemma CellCentre(step: real, size: real, k: real)
    requires size > 0.0
    ensures step / size / 2.0 + k * (step / size) == (k + 0.5) * step / size
  {
    var q := step / size;
    assert q * size == step;
    assert ((k + 0.5) * q) * size == (k + 0.5) * step;
  }

  /** One entry of the decode tables s, y, x, h, w of _init_syxhw: the stride,
      the pixel origin of the cell, and the anchor size. */
  datatype Slot = Slot(s: real, y: real, x: real, h: real, w: real)

  function SlotAt(cfg: Config, pos: Position): Slot
    requires ValidConfig(cfg) && OnGrid(cfg, pos)
  {
    var step := Step(cfg, pos.level) as real;
    var a := cfg.anchors[pos.level][pos.anchor];
    Slot(step, pos.row as real * step, pos.col as real * step, a.h, a.w)
  }

  /** The decode table entry of slot e. */
  function TableEntry(cfg: Config, e: nat): Slot
    requires ValidConfig(cfg) && e < SlotCount(cfg)
  {
    SlotAt(cfg, PositionOf(cfg, e))
  }

  /** The table entry at a cell position holds the stride, the cell origin
      (row * stride, col * stride) and the anchor size, all positive but the
      origin. */
  lemma SlotAtIsCellOrigin(cfg: Config, pos: Position)
    requires ValidConfig(cfg) && OnGrid(cfg, pos)
    ensures var s := Step(cfg, pos.level) as real;
      var a := cfg.anchors[pos.level][pos.anchor];
      && SlotAt(cfg, pos) == Slot(s, pos.row as real * s, pos.col as real * s, a.h, a.w)
      && s >= 1.0 && a.h > 0.0 && a.w > 0.0
  {
  }

  /** The decode tables and the anchor boxes list the slots in the same
      order: decoding the neutral offset (sigmoid 0.5) and size (exp 0 = 1)
      with slot e's table entry gives slot e's anchor box. */
  lemma TableMatchesAnchorBox(cfg: Config, e: nat)
    requires ValidConfig(cfg) && e < SlotCount(cfg)
    ensures var c := ToYxhw(AnchorBox(cfg, e));
      var sl := TableEntry(cfg, e);
      && c.y == (0.5 * sl.s + sl.y) / cfg.height as real
      && c.x == (0.5 * sl.s + sl.x) / cfg.width as real
      && c.h == sl.h && c.w == sl.w
  {
    TableMatchesBoxAt(cfg, PositionOf(cfg, e));
  }

  lemma TableMatchesBoxAt(cfg: Config, pos: Position)
    requires ValidConfig(cfg) && OnGrid(cfg, pos)
    ensures var c := ToYxhw(BoxAt(cfg, pos));
      var sl := SlotAt(cfg, pos);
      && c.y == (0.5 * sl.s + sl.y) / cfg.height as real
      && c.x == (0.5 * sl.s + sl.x) / cfg.width as real
      && c.h == sl.h && c.w == sl.w
  {
    BoxAtCentred(cfg, pos);
    SlotAtIsCellOrigin(cfg, pos);
    var s := Step(cfg, pos.level) as real;
    HalfStep(pos.row as real, s, cfg.height as real);
    HalfStep(pos.col as real, s, cfg.width as real);
  }

  lemma HalfStep(k: real, s: real, size: real)
    requires size > 0.0
    ensures (k + 0.5) * s / size == (0.5 * s + k * s) / size
  {
    assert (k + 0.5) * s == 0.5 * s + k * s;
  }

  /** Level i's block of anchor boxes, as _get_default_ltrb builds it. */
  function LevelBoxes(cfg: Config, i: nat): (boxes: seq<Ltrb>)
    requires ValidConfig(cfg) && i < NumLevels(cfg)
    ensures |boxes| == LevelArea(cfg, i) * NumAnchors(cfg)
  {
    var count := LevelArea(cfg, i) * NumAnchors(cfg);
    seq(count, k requires 0 <= k < count =>
      BlockPositionIsSlot(cfg, i, k);
      BoxAt(cfg, BlockPosition(cfg, i, k)))
  }

  /** Level i's block holds the anchor boxes of the level's slots, Cum(i) * n
      onwards. */
  lemma LevelBoxesAreAnchorBoxes(cfg: Config, i: nat)
    requires ValidConfig(cfg) && i < NumLevels(cfg)
    ensures FirstSlot(cfg, i + 1) <= SlotCount(cfg)
    ensures FirstSlot(cfg, i) + |LevelBoxes(cfg, i)| == FirstSlot(cfg, i + 1)
    ensures forall k :: 0 <= k < |LevelBoxes(cfg, i)| ==>
      LevelBoxes(cfg, i)[k] == AnchorBox(cfg, FirstSlot(cfg, i) + k)
  {
    LevelSlots(cfg, i);
    forall k | 0 <= k < |LevelBoxes(cfg, i)|
      ensures LevelBoxes(cfg, i)[k] == AnchorBox(cfg, FirstSlot(cfg, i) + k)
    {
      LevelBoxAt(cfg, i, k);
    }
  }

  /** Slot k of a block of `area` cells starting at cell `cum` lies below
      the slot count. */
  lemma BlockInRange(cum: nat, area: nat, total: nat, n: nat, k: nat)
    requires cum + area <= total && k < area * n
    ensures 0 <= cum * n + k < total * n
  {
    MulLe(cum + area, total, n);
    MulAddDistrib(cum, area, n);
  }

  /** Level i's slots are the range [FirstSlot(i), FirstSlot(i + 1)) of
      area[i] * n slots, inside the image's slots. */
  lemma LevelSlots(cfg: Config, i: nat)
    requires ValidConfig(cfg) && i < NumLevels(cfg)
    ensures FirstSlot(cfg, i) + LevelArea(cfg, i) * NumAnchors(cfg) == FirstSlot(cfg, i + 1)
    ensures FirstSlot(cfg, i + 1) <= SlotCount(cfg)
  {
    CumMonotone(cfg, i + 1, NumLevels(cfg));
    MulLe(Cum(cfg, i + 1), TotalArea(cfg), NumAnchors(cfg));
    MulAddDistrib(Cum(cfg, i), LevelArea(cfg, i), NumAnchors(cfg));
  }

  /** Slot k of level i's block has the table entry of its block position. */
  lemma LevelTableEntry(cfg: Config, i: nat, k: nat)
    requires ValidConfig(cfg) && i < NumLevels(cfg)
    requires k < LevelArea(cfg, i) * NumAnchors(cfg)
    ensures FirstSlot(cfg, i) + k < SlotCount(cfg)
    ensures TableEntry(cfg, FirstSlot(cfg, i) + k) == SlotAt(cfg, BlockPosition(cfg, i, k))
  {
    CumMonotone(cfg, i + 1, NumLevels(cfg));
    BlockInRange(Cum(cfg, i), LevelArea(cfg, i), TotalArea(cfg), NumAnchors(cfg), k);
    BlockPositionIsSlot(cfg, i, k);
  }

  /** Slot k of level i's block as _init_syxhw computes it: the stride, the
      row origin from the `repeat`ed arange of row starts (entry k is start
      k / (n * x_num)), the column origin from the `tile`d arange of column
      starts (entry k is start (k mod (n * x_num)) / n), and anchor k mod n.
      It is the table entry of slot FirstSlot(i) + k. */
  lemma TableEntryAsComputed(cfg: Config, i: nat, first: nat, k: nat, n: nat, step: nat, xNum: nat,
                             y: nat, x: nat, sl: Slot)
    requires ValidConfig(cfg) && i < NumLevels(cfg) && n == NumAnchors(cfg) && first == FirstSlot(cfg, i)
    requires k < LevelArea(cfg, i) * n
    requires step == Step(cfg, i) && xNum == cfg.width / step && n * xNum > 0
    requires y == k / (n * xNum) && x == (k % (n * xNum)) / n
    requires sl == Slot(step as real, y as real * step as real, x as real * step as real,
                        cfg.anchors[i][k % n].h, cfg.anchors[i][k % n].w)
    ensures first + k < SlotCount(cfg)
    ensures TableEntry(cfg, first + k) == sl
  {
    SlotOfCell(cfg, i, y, x, k % n, step, sl);
    AreaIsCellCount(cfg, i);
    RepeatTile(k, n, xNum);
    assert xNum == Cols(cfg, i);
    assert BlockPosition(cfg, i, k) == Position(i, y, x, k % n);
    LevelTableEntry(cfg, i, k);
  }

  lemma SlotOfCell(cfg: Config, i: nat, y: nat, x: nat, a: nat, step: nat, sl: Slot)
    requires ValidConfig(cfg) && i < NumLevels(cfg) && a < NumAnchors(cfg) && step == Step(cfg, i)
    requires sl == Slot(step as real, y as real * step as real, x as real * step as real,
                        cfg.anchors[i][a].h, cfg.anchors[i][a].w)
    ensures SlotAt(cfg, Position(i, y, x, a)) == sl
  {
  }

  lemma LevelBoxAt(cfg: Config, i: nat, k: nat)
    requires ValidConfig(cfg) && i < NumLevels(cfg)
    requires k < LevelArea(cfg, i) * NumAnchors(cfg)
    ensures FirstSlot(cfg, i) + k < SlotCount(cfg)
    ensures LevelBoxes(cfg, i)[k] == AnchorBox(cfg, FirstSlot(cfg, i) + k)
  {
    CumMonotone(cfg, i + 1, NumLevels(cfg));
    BlockInRange(Cum(cfg, i), LevelArea(cfg, i), TotalArea(cfg), NumAnchors(cfg), k);
    BlockPositionIsSlot(cfg, i, k);
  }
}
