/** src/image.rs, the dynamic-resolution processor: cutting frames into patches in the order the vision tower
    assumes. */
module Preprocess {
  import opened Arith
  import opened Mrope
  import opened Prelude
  import opened Provider
  import opened Resize
  import opened SmartResize
  import opened Tables
  import opened Vision

  /** The geometry of a processor, and its per-channel normalisation. */
  datatype Processor = Processor(patchSize: nat, mergeSize: nat, temporalPatchSize: nat, mean: seq<real>,
    std: seq<real>)

  predicate ProcessorOk(proc: Processor)
  {
    && proc.patchSize > 0 && proc.mergeSize > 0 && proc.temporalPatchSize > 0
    && |proc.mean| == |proc.std| == 3 && forall c :: 0 <= c < 3 ==> proc.std[c] != 0.0
  }

  /** One temporal patch's frames, one per slot, and their common shape. */
  datatype Source = Source(frames: seq<seq<int>>, height: nat, width: nat)

  predicate Fills(frame: seq<int>, h: nat, w: nat) { Times(Times(h, w), 3) <= |frame| }

  predicate SourceOk(proc: Processor, src: Source)
  {
    |src.frames| == proc.temporalPatchSize && forall tt :: 0 <= tt < |src.frames| ==>
      Fills(src.frames[tt], src.height, src.width)
  }

  /** The patch at `cell` lies inside the frames. */
  predicate CellIn(proc: Processor, src: Source, cell: Cell)
  {
    Times(cell.row + 1, proc.patchSize) <= src.height && Times(cell.col + 1, proc.patchSize) <= src.width
  }

  predicate CellsIn(proc: Processor, src: Source, cells: seq<Cell>)
  {
    forall k :: 0 <= k < |cells| ==> CellIn(proc, src, cells[k])
  }

  /** The normalised value of channel `ch` of pixel `(row, col)` in a `width`-wide frame. */
  function Norm(proc: Processor, frame: seq<int>, width: nat, row: nat, col: nat, ch: nat): real
    requires ProcessorOk(proc) && ch < 3 && Readable(frame, width, row, col, ch)
  {
    (Pixel(frame, width, row, col, ch) as real / 255.0 - proc.mean[ch]) / proc.std[ch]
  }

  /** Undoing the normalisation gives the byte in 255ths: black is `-mean/std`, white `(1 - mean)/std`, and the values
      between lie on the line. */
  lemma NormUndone(proc: Processor, frame: seq<int>, width: nat, row: nat, col: nat, ch: nat)
    requires ProcessorOk(proc) && ch < 3 && Readable(frame, width, row, col, ch)
    ensures var v, x := Pixel(frame, width, row, col, ch), Norm(proc, frame, width, row, col, ch);
      && (x * proc.std[ch] + proc.mean[ch]) * 255.0 == v as real
      && (v == 0 ==> x == -proc.mean[ch] / proc.std[ch])
      && (v == 255 ==> x == (1.0 - proc.mean[ch]) / proc.std[ch])
  {
    hide Pixel, Readable;
    var v := Pixel(frame, width, row, col, ch);
    DivBack(v as real / 255.0 - proc.mean[ch], proc.std[ch]);
  }

  lemma DivBack(a: real, b: real)
    requires b != 0.0
    ensures a / b * b == a
  {
  }

  /** Every pixel a patch inside the frames reads is there. */
  lemma PatchPixel(proc: Processor, src: Source, cell: Cell, ch: nat, tt: nat, pr: nat, pc: nat)
    requires ProcessorOk(proc) && SourceOk(proc, src) && CellIn(proc, src, cell)
    requires ch < 3 && tt < proc.temporalPatchSize && pr < proc.patchSize && pc < proc.patchSize
    ensures Readable(src.frames[tt], src.width, Join(cell.row, proc.patchSize, pr),
        Join(cell.col, proc.patchSize, pc), ch)
  {
    hide Times, Join;
    var p := proc.patchSize;
    JoinSplit(cell.row, pr, cell.row + 1, p);
    JoinSplit(cell.col, pc, cell.col + 1, p);
    EntryJoins(src.height, src.width, Join(cell.row, p, pr), Join(cell.col, p, pc), ch);
    assert Fills(src.frames[tt], src.height, src.width);
  }

  /** Entry `(pr, pc)` of channel `ch`, temporal slot `tt`, of the patch at `cell`. */
  function PatchValue(proc: Processor, src: Source, cell: Cell, ch: nat, tt: nat, pr: nat, pc: nat): real
    requires ProcessorOk(proc) && SourceOk(proc, src) && CellIn(proc, src, cell)
    requires ch < 3 && tt < proc.temporalPatchSize && pr < proc.patchSize && pc < proc.patchSize
  {
    PatchPixel(proc, src, cell, ch, tt, pr, pc);
    Norm(proc, src.frames[tt], src.width, Join(cell.row, proc.patchSize, pr), Join(cell.col, proc.patchSize, pc), ch)
  }

  /** The entries of one plane; the table reads it inside the plane only. */
  function PlaneEntry(proc: Processor, src: Source, cell: Cell, ch: nat, tt: nat): (nat, nat) -> real
    requires ProcessorOk(proc) && SourceOk(proc, src) && CellIn(proc, src, cell) && ch < 3
        && tt < proc.temporalPatchSize
  {
    (pr: nat, pc: nat) =>
      if pr < proc.patchSize && pc < proc.patchSize then PatchValue(proc, src, cell, ch, tt, pr, pc) else 0.0
  }

  function Plane(proc: Processor, src: Source, cell: Cell, ch: nat, tt: nat): (out: seq<real>)
    requires ProcessorOk(proc) && SourceOk(proc, src) && CellIn(proc, src, cell) && ch < 3
        && tt < proc.temporalPatchSize
    ensures |out| == Times(proc.patchSize, proc.patchSize)
  {
    Table(proc.patchSize, proc.patchSize, PlaneEntry(proc, src, cell, ch, tt))
  }

  function PlaneOf(proc: Processor, src: Source, cell: Cell): (nat, nat) -> seq<real>
    requires ProcessorOk(proc) && SourceOk(proc, src) && CellIn(proc, src, cell)
  {
    (ch: nat, tt: nat) => if ch < 3 && tt < proc.temporalPatchSize then Plane(proc, src, cell, ch, tt) else []
  }

  function Planes(proc: Processor, src: Source, cell: Cell): (out: seq<seq<real>>)
    requires ProcessorOk(proc) && SourceOk(proc, src) && CellIn(proc, src, cell)
    ensures |out| == Times(3, proc.temporalPatchSize)
  {
    Table(3, proc.temporalPatchSize, PlaneOf(proc, src, cell))
  }

  /** One patch's row: channel, temporal slot, patch row, patch column. */
  function PatchRow(proc: Processor, src: Source, cell: Cell): seq<real>
    requires ProcessorOk(proc) && SourceOk(proc, src) && CellIn(proc, src, cell)
  {
    Flatten(Planes(proc, src, cell))
  }

  function FeatureSize(proc: Processor): nat
  {
    Times(Times(3, proc.temporalPatchSize), Times(proc.patchSize, proc.patchSize))
  }

  /** Where an entry stands in a patch's row. */
  function FeatureIndex(proc: Processor, ch: nat, tt: nat, pr: nat, pc: nat): nat
  {
    Join(Join(ch, proc.temporalPatchSize, tt), Times(proc.patchSize, proc.patchSize), Join(pr, proc.patchSize, pc))
  }

  lemma PlaneSizes(proc: Processor, src: Source, cell: Cell)
    requires ProcessorOk(proc) && SourceOk(proc, src) && CellIn(proc, src, cell)
    ensures var planes := Planes(proc, src, cell);
      forall q :: 0 <= q < |planes| ==> |planes[q]| == Times(proc.patchSize, proc.patchSize)
    ensures |PatchRow(proc, src, cell)| == FeatureSize(proc)
  {
    hide Times, PatchValue, SourceOk, CellIn, PlaneEntry;
    var planes := Planes(proc, src, cell);
    forall q: nat | q < |planes| ensures |planes[q]| == Times(proc.patchSize, proc.patchSize) {
      TableIndex(3, proc.temporalPatchSize, PlaneOf(proc, src, cell), q);
      SplitJoin(q, 3, proc.temporalPatchSize);
    }
    FlattenLength(planes, Times(proc.patchSize, proc.patchSize));
  }

  lemma PatchRowAt(proc: Processor, src: Source, cell: Cell, ch: nat, tt: nat, pr: nat, pc: nat)
    requires ProcessorOk(proc) && SourceOk(proc, src) && CellIn(proc, src, cell)
    requires ch < 3 && tt < proc.temporalPatchSize && pr < proc.patchSize && pc < proc.patchSize
    ensures FeatureIndex(proc, ch, tt, pr, pc) < FeatureSize(proc) == |PatchRow(proc, src, cell)|
    ensures PatchRow(proc, src, cell)[FeatureIndex(proc, ch, tt, pr, pc)] == PatchValue(proc, src, cell, ch, tt, pr, pc)
  {
    hide Times, Join, PatchValue, SourceOk, CellIn;
    PlaneSizes(proc, src, cell);
    TableAt(3, proc.temporalPatchSize, PlaneOf(proc, src, cell), ch, tt);
    TableAt(proc.patchSize, proc.patchSize, PlaneEntry(proc, src, cell, ch, tt), pr, pc);
    FlattenUniform(Planes(proc, src, cell), Times(proc.patchSize, proc.patchSize),
                   Join(ch, proc.temporalPatchSize, tt), Join(pr, proc.patchSize, pc));
  }

  /** The patch rows of a list of cells. */
  function PatchRows(proc: Processor, src: Source, cells: seq<Cell>): (out: seq<seq<real>>)
    requires ProcessorOk(proc) && SourceOk(proc, src) && CellsIn(proc, src, cells)
    ensures |out| == |cells| && forall k :: 0 <= k < |cells| ==> out[k] == PatchRow(proc, src, cells[k])
  {
    seq(|cells|, k requires 0 <= k < |cells| => PatchRow(proc, src, cells[k]))
  }

  /** A frame of `hm × wm` merged blocks is `h × w` pixels. */
  predicate Covers(proc: Processor, hm: nat, wm: nat, h: nat, w: nat)
  {
    h == Times(Times(hm, proc.mergeSize), proc.patchSize) && w == Times(Times(wm, proc.mergeSize), proc.patchSize)
  }

  /** Every cell of a frame of whole merged blocks lies inside it. */
  lemma OrderInside(proc: Processor, src: Source, hm: nat, wm: nat)
    requires ProcessorOk(proc) && Covers(proc, hm, wm, src.height, src.width)
    ensures CellsIn(proc, src, PatchOrder(hm, wm, proc.mergeSize))
  {
    hide PatchOrder, Times, Place;
    var p, m := proc.patchSize, proc.mergeSize;
    var cells := PatchOrder(hm, wm, m);
    forall k | 0 <= k < |cells| ensures CellIn(proc, src, cells[k]) {
      PlaceOfPatch(hm, wm, m, k);
      TimesBelow(cells[k].row + 1, Times(hm, m), p);
      TimesBelow(cells[k].col + 1, Times(wm, m), p);
    }
  }

  /** A whole frame's patches, flattened. */
  function FramePatches(proc: Processor, src: Source, hm: nat, wm: nat): seq<real>
    requires ProcessorOk(proc) && SourceOk(proc, src) && Covers(proc, hm, wm, src.height, src.width)
  {
    OrderInside(proc, src, hm, wm);
    Flatten(PatchRows(proc, src, PatchOrder(hm, wm, proc.mergeSize)))
  }

  lemma RowSizes(proc: Processor, src: Source, cells: seq<Cell>)
    requires ProcessorOk(proc) && SourceOk(proc, src) && CellsIn(proc, src, cells)
    ensures var rows := PatchRows(proc, src, cells); forall i :: 0 <= i < |rows| ==> |rows[i]| == FeatureSize(proc)
    ensures |Flatten(PatchRows(proc, src, cells))| == Times(|cells|, FeatureSize(proc))
  {
    hide FeatureSize, PatchRow, Times, SourceOk, CellIn;
    var rows := PatchRows(proc, src, cells);
    forall i | 0 <= i < |rows| ensures |rows[i]| == FeatureSize(proc) {
      PlaneSizes(proc, src, cells[i]);
    }
    FlattenLength(rows, FeatureSize(proc));
  }

  /** Alignment within one frame: patch `k` holds exactly the pixels of the `k`-th cell the position ids list. */
  lemma PatchKIsCellK(proc: Processor, src: Source, hm: nat, wm: nat, k: nat, ch: nat, tt: nat, pr: nat, pc: nat)
    requires ProcessorOk(proc) && SourceOk(proc, src) && Covers(proc, hm, wm, src.height, src.width)
    requires k < |PatchOrder(hm, wm, proc.mergeSize)|
    requires ch < 3 && tt < proc.temporalPatchSize && pr < proc.patchSize && pc < proc.patchSize
    ensures |FramePatches(proc, src, hm, wm)| == Times(|PatchOrder(hm, wm, proc.mergeSize)|, FeatureSize(proc))
    ensures Join(k, FeatureSize(proc), FeatureIndex(proc, ch, tt, pr, pc)) < |FramePatches(proc, src, hm, wm)|
    ensures CellIn(proc, src, PatchOrder(hm, wm, proc.mergeSize)[k])
    ensures FramePatches(proc, src, hm, wm)[Join(k, FeatureSize(proc), FeatureIndex(proc, ch, tt, pr, pc))]
         == PatchValue(proc, src, PatchOrder(hm, wm, proc.mergeSize)[k], ch, tt, pr, pc)
  {
    hide PatchOrder, FeatureSize, FeatureIndex, PatchRow, PatchValue, Join, Times, SourceOk, CellIn;
    OrderInside(proc, src, hm, wm);
    var cells := PatchOrder(hm, wm, proc.mergeSize);
    var rows := PatchRows(proc, src, cells);
    RowSizes(proc, src, cells);
    PatchRowAt(proc, src, cells[k], ch, tt, pr, pc);
    FlattenUniform(rows, FeatureSize(proc), k, FeatureIndex(proc, ch, tt, pr, pc));
  }

  /** A smart-resized shape is covered by whole merged blocks. */
  lemma MultiplesAreCovered(proc: Processor, h: nat, w: nat)
    requires ProcessorOk(proc)
    requires IsMultiple(h, Times(proc.patchSize, proc.mergeSize))
        && IsMultiple(w, Times(proc.patchSize, proc.mergeSize))
    ensures Covers(proc, Quot(Quot(h, proc.patchSize), proc.mergeSize), Quot(Quot(w, proc.patchSize), proc.mergeSize),
        h, w)
    ensures Rem(Quot(h, proc.patchSize), proc.mergeSize) == 0 == Rem(Quot(w, proc.patchSize), proc.mergeSize)
  {
    hide Times, Quot, Rem, IsMultiple;
    MultipleSplits(h, proc.patchSize, proc.mergeSize);
    MultipleSplits(w, proc.patchSize, proc.mergeSize);
  }

  lemma MultipleSplits(x: nat, p: nat, m: nat)
    requires p > 0 && m > 0 && IsMultiple(x, Times(p, m))
    ensures Times(Times(Quot(Quot(x, p), m), m), p) == x && Rem(Quot(x, p), m) == 0
  {
    var q := x / (p * m);
    Product(p, m);
    assert x == q * (p * m);
    ThreeFactors(q, p, m);
    DivUnique(x, q * m, 0, p);
    DivUnique(q * m, q, 0, m);
  }

  lemma ThreeFactors(q: int, p: int, m: int)
    ensures q * (p * m) == (q * m) * p
  {
  }

  // ----- the loops -----

  /** One plane of a patch. */
  method PushPlane(proc: Processor, src: Source, cell: Cell, c: nat, tt: nat, before: seq<real>)
      returns (out: seq<real>)
    requires ProcessorOk(proc) && SourceOk(proc, src) && CellIn(proc, src, cell) && c < 3 && tt < proc.temporalPatchSize
    ensures out == before + Plane(proc, src, cell, c, tt)
  {
    hide Norm, SourceOk, CellIn;
    var p := proc.patchSize;
    ghost var g := PlaneEntry(proc, src, cell, c, tt);
    out := before;
    for pr := 0 to p
      invariant out == before + Table(pr, p, g)
    {
      ghost var line0 := out;
      for pc := 0 to p
        invariant out == line0 + Row(pr, pc, g)
      {
        RowSnoc(pr, pc, g);
        PatchPixel(proc, src, cell, c, tt, pr, pc);
        out := out + [Norm(proc, FrameAt(proc, src, tt), src.width, Join(cell.row, p, pr), Join(cell.col, p, pc), c)];
      }
      Assoc(before, Table(pr, p, g), Row(pr, p, g));
    }
  }

  function FrameAt(proc: Processor, src: Source, tt: nat): (frame: seq<int>)
    requires SourceOk(proc, src) && tt < proc.temporalPatchSize
    ensures tt < |src.frames| && frame == src.frames[tt]
  {
    src.frames[tt]
  }

  /** Append one patch: channel, temporal slot, patch row, patch column. */
  method PushPatch(proc: Processor, src: Source, cell: Cell, before: seq<real>) returns (out: seq<real>)
    requires ProcessorOk(proc) && SourceOk(proc, src) && CellIn(proc, src, cell)
    ensures out == before + PatchRow(proc, src, cell)
  {
    hide Plane, Flatten, Times, SourceOk, CellIn;
    var t := proc.temporalPatchSize;
    ghost var f := PlaneOf(proc, src, cell);
    ghost var planes: seq<seq<real>> := [];
    out := before;
    NothingFlat<real>();
    for c := 0 to 3
      invariant planes == Table(c, t, f) && out == before + Flatten(planes)
    {
      ghost var start := planes;
      for tt := 0 to t
        invariant planes == start + Row(c, tt, f) && out == before + Flatten(planes)
      {
        out := PushPlane(proc, src, cell, c, tt, out);
        ghost var plane := Plane(proc, src, cell, c, tt);
        FlattenSnoc(planes, plane);
        RowSnoc(c, tt, f);
        Assoc(before, Flatten(planes), plane);
        Assoc(start, Row(c, tt, f), [plane]);
        planes := planes + [plane];
      }
    }
  }

  lemma NothingFlat<T>()
    ensures Flatten<T>([]) == []
  {
  }

  lemma PatchRowsSnoc(proc: Processor, src: Source, cells: seq<Cell>, cell: Cell)
    requires ProcessorOk(proc) && SourceOk(proc, src) && CellsIn(proc, src, cells) && CellIn(proc, src, cell)
    ensures CellsIn(proc, src, cells + [cell])
    ensures Flatten(PatchRows(proc, src, cells + [cell])) == Flatten(PatchRows(proc, src, cells))
        + PatchRow(proc, src, cell)
  {
    assert PatchRows(proc, src, cells + [cell]) == PatchRows(proc, src, cells) + [PatchRow(proc, src, cell)];
    FlattenSnoc(PatchRows(proc, src, cells), PatchRow(proc, src, cell));
  }

  /** The cells of one merged block lie inside. */
  predicate SquareIn(proc: Processor, src: Source, bh: nat, bw: nat)
  {
    && Times(Times(bh + 1, proc.mergeSize), proc.patchSize) <= src.height
    && Times(Times(bw + 1, proc.mergeSize), proc.patchSize) <= src.width
  }

  lemma SquareCellIn(proc: Processor, src: Source, bh: nat, bw: nat, ih: nat, iw: nat)
    requires ProcessorOk(proc) && SquareIn(proc, src, bh, bw) && ih < proc.mergeSize && iw < proc.mergeSize
    ensures CellIn(proc, src, Cell(Join(bh, proc.mergeSize, ih), Join(bw, proc.mergeSize, iw)))
  {
    hide Times, Join;
    var p, m := proc.patchSize, proc.mergeSize;
    JoinSplit(bh, ih, bh + 1, m);
    JoinSplit(bw, iw, bw + 1, m);
    TimesBelow(Join(bh, m, ih) + 1, Times(bh + 1, m), p);
    TimesBelow(Join(bw, m, iw) + 1, Times(bw + 1, m), p);
  }

  /** Append one merged block's patches. */
  method PushSquare(proc: Processor, src: Source, bh: nat, bw: nat, ghost cells0: seq<Cell>, before: seq<real>)
    returns (out: seq<real>)
    requires ProcessorOk(proc) && SourceOk(proc, src) && CellsIn(proc, src, cells0) && SquareIn(proc, src, bh, bw)
    requires before == Flatten(PatchRows(proc, src, cells0))
    ensures CellsIn(proc, src, cells0 + Square(bh, bw, proc.mergeSize))
    ensures out == Flatten(PatchRows(proc, src, cells0 + Square(bh, bw, proc.mergeSize)))
  {
    hide PatchRow, Times, PatchRows, Flatten, SourceOk, CellIn, CellsIn, SquareIn;
    var m := proc.mergeSize;
    ghost var g := (b: nat, d: nat) => Cell(Join(bh, m, b), Join(bw, m, d));
    ghost var cells := cells0;
    out := before;
    for ih := 0 to m
      invariant cells == cells0 + Table(ih, m, g) && CellsIn(proc, src, cells)
      invariant out == Flatten(PatchRows(proc, src, cells))
    {
      ghost var line0 := cells;
      for iw := 0 to m
        invariant cells == line0 + Row(ih, iw, g) && CellsIn(proc, src, cells)
        invariant out == Flatten(PatchRows(proc, src, cells))
      {
        RowSnoc(ih, iw, g);
        var cell := Cell(Join(bh, m, ih), Join(bw, m, iw));
        SquareCellIn(proc, src, bh, bw, ih, iw);
        PatchRowsSnoc(proc, src, cells, cell);
        out := PushPatch(proc, src, cell, out);
        cells := cells + [cell];
      }
      Assoc(cells0, Table(ih, m, g), Row(ih, m, g));
    }
  }

  /** Append one temporal patch's worth of frame, in merge-block order. */
  method PushFrame(proc: Processor, src: Source, gridH: nat, gridW: nat) returns (out: seq<real>)
    requires ProcessorOk(proc) && SourceOk(proc, src)
    requires Covers(proc, Quot(gridH, proc.mergeSize), Quot(gridW, proc.mergeSize), src.height, src.width)
    ensures out == FramePatches(proc, src, Quot(gridH, proc.mergeSize), Quot(gridW, proc.mergeSize))
  {
    hide PatchRow, Times, PatchRows, Square, Flatten, SourceOk, CellIn, CellsIn, SquareIn;
    var m := proc.mergeSize;
    var hm, wm := Quot(gridH, m), Quot(gridW, m);
    ghost var f := (a: nat, c: nat) => Square(a, c, m);
    ghost var blocks: seq<seq<Cell>> := [];
    out := [];
    NothingFlat<Cell>();
    NoPatches(proc, src);
    for bh := 0 to hm
      invariant blocks == Table(bh, wm, f) && CellsIn(proc, src, Flatten(blocks))
      invariant out == Flatten(PatchRows(proc, src, Flatten(blocks)))
    {
      ghost var blocks0 := blocks;
      for bw := 0 to wm
        invariant blocks == blocks0 + Row(bh, bw, f) && CellsIn(proc, src, Flatten(blocks))
        invariant out == Flatten(PatchRows(proc, src, Flatten(blocks)))
      {
        SquareInside(proc, src, hm, wm, bh, bw);
        out := PushSquare(proc, src, bh, bw, Flatten(blocks), out);
        FlattenSnoc(blocks, Square(bh, bw, m));
        RowSnoc(bh, bw, f);
        Assoc(blocks0, Row(bh, bw, f), [Square(bh, bw, m)]);
        blocks := blocks + [Square(bh, bw, m)];
      }
    }
  }

  lemma SquareInside(proc: Processor, src: Source, hm: nat, wm: nat, bh: nat, bw: nat)
    requires Covers(proc, hm, wm, src.height, src.width) && bh < hm && bw < wm
    ensures SquareIn(proc, src, bh, bw)
  {
    hide Times;
    TimesBelow(bh + 1, hm, proc.mergeSize);
    TimesBelow(bw + 1, wm, proc.mergeSize);
    TimesBelow(Times(bh + 1, proc.mergeSize), Times(hm, proc.mergeSize), proc.patchSize);
    TimesBelow(Times(bw + 1, proc.mergeSize), Times(wm, proc.mergeSize), proc.patchSize);
  }

  lemma NoPatches(proc: Processor, src: Source)
    requires ProcessorOk(proc) && SourceOk(proc, src)
    ensures CellsIn(proc, src, []) && Flatten(PatchRows(proc, src, [])) == []
  {
  }

  // ----- the entry points -----

  /** A decoded frame at the chosen size: itself if it already fits, its resize otherwise. */
  function AtSize(pixels: seq<int>, h: nat, w: nat, rh: nat, rw: nat): (out: seq<int>)
    requires 0 < h && 0 < w && Fills(pixels, h, w)
    ensures Fills(out, rh, rw)
  {
    if rh == h && rw == w then pixels else Resized(pixels, h, w, rh, rw)
  }

  /** The frames of one shape, long enough for every pixel. */
  predicate AllFill(frames: seq<seq<int>>, h: nat, w: nat) { forall i :: 0 <= i < |frames| ==> Fills(frames[i], h, w) }

  /** The frames of the `f`-th temporal patch. */
  function SourceAt(proc: Processor, frames: seq<seq<int>>, f: nat, h: nat, w: nat): (src: Source)
    requires ProcessorOk(proc) && AllFill(frames, h, w) && Times(f + 1, proc.temporalPatchSize) <= |frames|
    ensures SourceOk(proc, src) && src.height == h && src.width == w
    ensures forall tt :: 0 <= tt < proc.temporalPatchSize ==>
      Join(f, proc.temporalPatchSize, tt) < |frames| && src.frames[tt] == frames[Join(f, proc.temporalPatchSize, tt)]
  {
    TimesSnoc(f, proc.temporalPatchSize);
    Source(frames[Times(f, proc.temporalPatchSize)..Times(f + 1, proc.temporalPatchSize)], h, w)
  }

  /** What both processors return: one patch row per cell of every temporal patch, in position-id order, over a grid of
      whole merged blocks. */
  ghost predicate Patched(proc: Processor, frames: seq<seq<int>>, rh: nat, rw: nat, gridT: nat, out: (seq<real>, Grid))
    requires ProcessorOk(proc)
  {
    var (gh, gw) := (Quot(rh, proc.patchSize), Quot(rw, proc.patchSize));
    && out.1 == Grid(gridT, gh, gw)
    && Rem(gh, proc.mergeSize) == 0 == Rem(gw, proc.mergeSize)
    && Covers(proc, Quot(gh, proc.mergeSize), Quot(gw, proc.mergeSize), rh, rw)
    && AllFill(frames, rh, rw) && |frames| == Times(gridT, proc.temporalPatchSize)
    && out.0 == VideoPatches(proc, frames, rh, rw, Quot(gh, proc.mergeSize), Quot(gw, proc.mergeSize), gridT)
  }

  /** The patches of `n` temporal patches in turn. */
  function VideoPatches(proc: Processor, frames: seq<seq<int>>, h: nat, w: nat, hm: nat, wm: nat, n: nat): seq<real>
    requires ProcessorOk(proc) && AllFill(frames, h, w) && Times(n, proc.temporalPatchSize) <= |frames|
    requires Covers(proc, hm, wm, h, w)
  {
    if n == 0 then []
    else
      TimesSnoc(n - 1, proc.temporalPatchSize);
      VideoPatches(proc, frames, h, w, hm, wm, n - 1) + FramePatches(proc, SourceAt(proc, frames, n - 1, h, w), hm, wm)
  }

  /** The shape `smart_resize` chose for a frame of `h × w`. */
  ghost predicate Shape(proc: Processor, rh: nat, rw: nat)
    requires ProcessorOk(proc)
  {
    IsMultiple(rh, Times(proc.patchSize, proc.mergeSize)) && IsMultiple(rw, Times(proc.patchSize, proc.mergeSize))
  }

  /** One frame at the chosen size. */
  method ResizeFrame(pixels: seq<int>, h: nat, w: nat, rh: nat, rw: nat) returns (r: Result<seq<int>, Error>)
    requires h > 0 && w > 0 && IsBytes(pixels) && Fills(pixels, h, w)
    ensures r.Err? <==> rh == 0 || rw == 0
    ensures r.Ok? ==> r.value == AtSize(pixels, h, w, rh, rw)
  {
    hide Times, SolidChannel, Resized, IsBytes;
    if rh == h && rw == w {
      return Ok(pixels);
    }
    r := ResizeBicubicU8(pixels, h, w, rh, rw);
  }

  /** The decoded image has one byte per channel and pixel. */
  predicate FullImage(pixels: seq<int>, h: nat, w: nat) { |pixels| == Times(Times(w, h), 3) }

  lemma FullFills(pixels: seq<int>, h: nat, w: nat)
    requires FullImage(pixels, h, w)
    ensures Fills(pixels, h, w)
  {
    TimesSwaps(w, h);
  }

  /** The image path: the single frame fills every temporal slot. */
  method PreprocessImage(proc: Processor, root: real -> real, pixels: seq<int>, width: nat, height: nat,
                         minPixels: nat, maxPixels: nat)
    returns (r: Result<(seq<real>, Grid), Error>, ghost shape: (nat, nat))
    requires ProcessorOk(proc) && IsSqrt(root) && IsBytes(pixels)
    ensures minPixels > 0 ==> (r.Err? <==>
      !FullImage(pixels, height, width) || height == 0 || width == 0 || Max(height, width) > 200 * Min(height, width))
    ensures r.Ok? ==>
      && Shape(proc, shape.0, shape.1) && shape.0 > 0 && shape.1 > 0
      && height > 0 && width > 0 && Fills(pixels, height, width)
      && Patched(proc, seq(proc.temporalPatchSize, _ => AtSize(pixels, height, width, shape.0, shape.1)),
                 shape.0, shape.1, 1, r.value)
  {
    hide Times, Quot, Rem, IsMultiple, IsSqrt, Budget, RoundFactor, Covers, PatchOrder, FramePatches, SolidChannel,
      Resized;
    hide LeastReaching, GreatestWithin, Fills, AtSize;
    shape := (0, 0);
    if |pixels| != Times(Times(width, height), 3) {
      return Err(Msg("preprocess: unexpected byte count")), shape;
    }
    FullFills(pixels, height, width);
    var p, m, t := proc.patchSize, proc.mergeSize, proc.temporalPatchSize;
    FactorPositive(p, m);
    var sizeOr := SmartResizeWith(root, Times(p, m), height, width, 1, minPixels, maxPixels);
    if sizeOr.Err? {
      return Err(sizeOr.error), shape;
    }
    var (rh, rw) := sizeOr.value;
    shape := (rh, rw);
    var resizedOr := ResizeFrame(pixels, height, width, rh, rw);
    if resizedOr.Err? {
      return Err(resizedOr.error), shape;
    }
    var resized := resizedOr.value;
    var gridH, gridW := Quot(rh, p), Quot(rw, p);
    MultiplesAreCovered(proc, rh, rw);
    var frames := seq(t, _ => resized);
    TimesOne(t);
    var out := PushFrame(proc, SourceAt(proc, frames, 0, rh, rw), gridH, gridW);
    OneTemporalPatch(proc, frames, rh, rw, Quot(gridH, m), Quot(gridW, m));
    r := Ok((out, Grid(1, gridH, gridW)));
    assert frames == seq(t, _ => AtSize(pixels, height, width, rh, rw));
  }

  lemma FactorPositive(p: nat, m: nat)
    requires p > 0 && m > 0
    ensures Times(p, m) > 0
  {
    Product(p, m);
  }

  lemma TimesSwaps(a: nat, b: nat)
    ensures Times(a, b) == Times(b, a)
  {
  }

  lemma TimesOne(d: nat)
    ensures Times(0 + 1, d) == d == Times(1, d)
  {
  }

  lemma OneTemporalPatch(proc: Processor, frames: seq<seq<int>>, h: nat, w: nat, hm: nat, wm: nat)
    requires ProcessorOk(proc) && AllFill(frames, h, w) && Covers(proc, hm, wm, h, w)
    requires |frames| == Times(1, proc.temporalPatchSize) == Times(0 + 1, proc.temporalPatchSize)
    ensures VideoPatches(proc, frames, h, w, hm, wm, 1) == FramePatches(proc, SourceAt(proc, frames, 0, h, w), hm, wm)
  {
    hide FramePatches, Covers, AllFill;
    TimesSnoc(0, proc.temporalPatchSize);
    assert VideoPatches(proc, frames, h, w, hm, wm, 0) == [];
  }

  /** A list of frames padded by its last one to `n`. */
  function Padded(frames: seq<seq<int>>, n: nat): (out: seq<seq<int>>)
    requires frames != []
    ensures |out| == n
    ensures forall i :: 0 <= i < n ==> out[i] == if i < |frames| then frames[i] else frames[|frames| - 1]
  {
    seq(n, i requires 0 <= i => if i < |frames| then frames[i] else frames[|frames| - 1])
  }

  /** Some frame has the wrong shape or byte count. */
  predicate BadFrame(frames: seq<(seq<int>, nat, nat)>)
  {
    exists i :: 0 <= i < |frames| &&
      (frames[i].1 != frames[0].1 || frames[i].2 != frames[0].2 || !FullImage(frames[i].0, frames[i].2, frames[i].1))
  }

  /** Every decoded frame, `(pixels, width, height)`, is a whole image. */
  predicate WholeFrames(frames: seq<(seq<int>, nat, nat)>)
  {
    forall i :: 0 <= i < |frames| ==> frames[i].1 > 0 && frames[i].2 > 0 && Fills(frames[i].0, frames[i].2, frames[i].1)
  }

  /** The decoded frames at the chosen size. */
  function AllAtSize(frames: seq<(seq<int>, nat, nat)>, rh: nat, rw: nat): (out: seq<seq<int>>)
    requires WholeFrames(frames)
    ensures |out| == |frames| && AllFill(out, rh, rw)
  {
    seq(|frames|, i requires 0 <= i < |frames| => AtSize(frames[i].0, frames[i].2, frames[i].1, rh, rw))
  }

  lemma PaddedFills(frames: seq<seq<int>>, n: nat, h: nat, w: nat)
    requires frames != [] && AllFill(frames, h, w)
    ensures AllFill(Padded(frames, n), h, w)
  {
  }

  /** The video path: distinct frames fill the temporal slots, the last one repeated to a whole temporal patch. The
      grid's frame count is the one the per-frame timestamps have. */
  method PreprocessVideo(proc: Processor, root: real -> real, frames: seq<(seq<int>, nat, nat)>, minPixels: nat,
      maxPixels: nat)
    returns (r: Result<(seq<real>, Grid), Error>, ghost shape: (nat, nat))
    requires ProcessorOk(proc) && IsSqrt(root)
    requires forall i :: 0 <= i < |frames| ==> IsBytes(frames[i].0)
    ensures minPixels > 0 ==> (r.Err? <==>
      frames == [] || BadFrame(frames) || frames[0].1 == 0 || frames[0].2 == 0
      || Max(frames[0].2, frames[0].1) > 200 * Min(frames[0].2, frames[0].1))
    ensures r.Ok? ==>
      var gridT := GridT(|frames|, proc.temporalPatchSize);
      && Shape(proc, shape.0, shape.1) && shape.0 > 0 && shape.1 > 0 && gridT > 0 && frames != [] && WholeFrames(frames)
      && Patched(proc, Padded(AllAtSize(frames, shape.0, shape.1), Times(gridT, proc.temporalPatchSize)),
                 shape.0, shape.1, gridT, r.value)
  {
    hide Times, Quot, Rem, IsMultiple, IsSqrt, Budget, RoundFactor, Covers, PatchOrder, FramePatches, SolidChannel,
      Resized;
    hide AtSize, LeastReaching, GreatestWithin, Fills;
    shape := (0, 0);
    if frames == [] {
      return Err(Msg("video preprocess: no frames")), shape;
    }
    var (_, w0, h0) := frames[0];
    for i := 0 to |frames|
      invariant forall k :: 0 <= k < i ==> frames[k].1 == w0 && frames[k].2 == h0 && FullImage(frames[k].0, h0, w0)
    {
      var (px, w, h) := frames[i];
      if w != w0 || h != h0 {
        return Err(Msg("video preprocess: frames of different sizes")), shape;
      }
      if |px| != Times(Times(w, h), 3) {
        return Err(Msg("video preprocess: unexpected byte count")), shape;
      }
    }
    assert !BadFrame(frames);
    var p, m, t := proc.patchSize, proc.mergeSize, proc.temporalPatchSize;
    var gridT := GridT(|frames|, t);
    FramesMakeAPatch(|frames|, t);
    FactorPositive(p, m);
    var sizeOr := SmartResizeWith(root, Times(p, m), h0, w0, Times(gridT, t), minPixels, maxPixels);
    if sizeOr.Err? {
      return Err(sizeOr.error), shape;
    }
    var (rh, rw) := sizeOr.value;
    shape := (rh, rw);
    var gridH, gridW := Quot(rh, p), Quot(rw, p);
    MultiplesAreCovered(proc, rh, rw);
    FullFramesAreWhole(frames, h0, w0);
    var resizedOr := ResizeFrames(frames, h0, w0, rh, rw);
    if resizedOr.Err? {
      return Err(resizedOr.error), shape;
    }
    var padded := PadFrames(resizedOr.value, t);
    PaddedFills(resizedOr.value, Times(gridT, t), rh, rw);
    var out: seq<real> := [];
    TimesSnoc(0, t);
    for gt := 0 to gridT
      invariant Times(gt, t) <= Times(gridT, t)
      invariant out == VideoPatches(proc, padded, rh, rw, Quot(gridH, m), Quot(gridW, m), gt)
    {
      TimesBelow(gt + 1, gridT, t);
      var frame := PushFrame(proc, SourceAt(proc, padded, gt, rh, rw), gridH, gridW);
      out := out + frame;
    }
    r := Ok((out, Grid(gridT, gridH, gridW)));
  }

  lemma FramesMakeAPatch(n: nat, t: nat)
    requires n > 0 && t > 0
    ensures GridT(n, t) > 0
  {
    assert 0 < n <= GridT(n, t) * t;
  }

  lemma FullFramesAreWhole(frames: seq<(seq<int>, nat, nat)>, h0: nat, w0: nat)
    requires h0 > 0 && w0 > 0
    requires forall k :: 0 <= k < |frames| ==> frames[k].1 == w0 && frames[k].2 == h0 && FullImage(frames[k].0, h0, w0)
    ensures WholeFrames(frames)
  {
    forall i | 0 <= i < |frames| ensures Fills(frames[i].0, frames[i].2, frames[i].1) {
      FullFills(frames[i].0, h0, w0);
    }
  }

  /** Resize every frame to the common shape. */
  method ResizeFrames(frames: seq<(seq<int>, nat, nat)>, h0: nat, w0: nat, rh: nat, rw: nat)
    returns (r: Result<seq<seq<int>>, Error>)
    requires h0 > 0 && w0 > 0 && frames != [] && WholeFrames(frames)
    requires forall i :: 0 <= i < |frames| ==> IsBytes(frames[i].0)
    ensures r.Err? <==> rh == 0 || rw == 0
    ensures r.Ok? ==> r.value == AllAtSize(frames, rh, rw)
  {
    hide Times, AtSize, IsBytes, Fills;
    var out: seq<seq<int>> := [];
    for i := 0 to |frames|
      invariant |out| == i && (i > 0 ==> rh > 0 && rw > 0)
      invariant forall k :: 0 <= k < i ==> out[k] == AtSize(frames[k].0, frames[k].2, frames[k].1, rh, rw)
    {
      var (px, w, h) := frames[i];
      var resizedOr := ResizeFrame(px, h, w, rh, rw);
      if resizedOr.Err? {
        return Err(resizedOr.error);
      }
      out := out + [resizedOr.value];
    }
    r := Ok(out);
  }

  /** Repeat the last frame until the count is a whole number of temporal patches. */
  method PadFrames(frames: seq<seq<int>>, t: nat) returns (out: seq<seq<int>>)
    requires frames != [] && t > 0
    ensures out == Padded(frames, Times(GridT(|frames|, t), t))
  {
    out := frames;
    while |out| % t != 0
      invariant |frames| <= |out| <= GridT(|frames|, t) * t
      invariant out == Padded(frames, |out|)
      decreases GridT(|frames|, t) * t - |out|
    {
      if |out| == GridT(|frames|, t) * t {
        DivUnique(|out|, GridT(|frames|, t), 0, t);
      }
      out := out + [out[|out| - 1]];
    }
    FirstMultiple(|frames|, |out|, t);
  }
}
