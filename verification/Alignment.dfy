/** Where the image processor (src/image.rs), the vision tower (src/models/qwen35_vision.rs) and the position rows
    (src/models/deepstack.rs) meet: the whole returned buffer against the whole list of position ids, and every merged
    row against the position its placeholder token gets. */
module Alignment {
  import opened Arith
  import opened Expand
  import opened Mrope
  import opened Prelude
  import opened Preprocess
  import opened Vision

  // ----- the repeated frame -----

  /** Copy `f` of the list, entry `k`. */
  lemma {:induction false} RepeatedAt<T>(per: seq<T>, n: nat, f: nat, k: nat)
    requires f < n && k < |per|
    ensures |Repeated(per, n)| == Times(n, |per|) && Join(f, |per|, k) < |Repeated(per, n)|
    ensures Repeated(per, n)[Join(f, |per|, k)] == per[k]
  {
    RepeatedSize(per, n);
    RepeatedSize(per, n - 1);
    JoinSplit(f, k, n, |per|);
    hide Times;
    TimesSnoc(n - 1, |per|);
    if f == n - 1 {
      JoinAfter(f, |per|, k);
    } else {
      RepeatedAt(per, n - 1, f, k);
    }
  }

  lemma JoinAfter(f: nat, d: nat, k: nat)
    ensures Join(f, d, k) == Times(f, d) + k
  {
  }

  lemma {:induction false} RepeatedSize<T>(per: seq<T>, n: nat)
    ensures |Repeated(per, n)| == Times(n, |per|)
  {
    TimesSnoc(if n > 0 then n - 1 else 0, |per|);
    if n > 0 {
      RepeatedSize(per, n - 1);
    }
  }

  /** The position ids of one grid. */
  lemma OneGrid(g: Grid, m: nat)
    requires m > 0 && GridOk(g)
    ensures PositionIds([g], m) == Repeated(PatchOrder(g.h / m, g.w / m, m), g.t)
  {
    hide PatchOrder, Repeated;
    assert [g][..0] == [];
    assert PositionIds([], m) == [];
  }

  // ----- all temporal patches -----

  /** How many values one temporal patch takes. */
  function FrameLength(proc: Processor, hm: nat, wm: nat): nat
  {
    Times(|PatchOrder(hm, wm, proc.mergeSize)|, FeatureSize(proc))
  }

  lemma FrameLengthIs(proc: Processor, src: Source, hm: nat, wm: nat)
    requires ProcessorOk(proc) && SourceOk(proc, src) && Covers(proc, hm, wm, src.height, src.width)
    ensures |FramePatches(proc, src, hm, wm)| == FrameLength(proc, hm, wm)
  {
    hide PatchOrder, PatchRows, FeatureSize;
    OrderInside(proc, src, hm, wm);
    RowSizes(proc, src, PatchOrder(hm, wm, proc.mergeSize));
  }

  /** Entry `i` of temporal patch `f` in the buffer of `n`. */
  lemma {:induction false} VideoPatchesAt(proc: Processor, frames: seq<seq<int>>, h: nat, w: nat, hm: nat, wm: nat,
                                          n: nat, f: nat, i: nat)
    requires ProcessorOk(proc) && AllFill(frames, h, w) && Times(n, proc.temporalPatchSize) <= |frames|
    requires Covers(proc, hm, wm, h, w) && f < n && i < FrameLength(proc, hm, wm)
    ensures |VideoPatches(proc, frames, h, w, hm, wm, n)| == Times(n, FrameLength(proc, hm, wm))
    ensures Times(f + 1, proc.temporalPatchSize) <= |frames|
    ensures Join(f, FrameLength(proc, hm, wm), i) < |VideoPatches(proc, frames, h, w, hm, wm, n)|
    ensures i < |FramePatches(proc, SourceAt(proc, frames, f, h, w), hm, wm)|
    ensures VideoPatches(proc, frames, h, w, hm, wm, n)[Join(f, FrameLength(proc, hm, wm), i)]
         == FramePatches(proc, SourceAt(proc, frames, f, h, w), hm, wm)[i]
  {
    var size := FrameLength(proc, hm, wm);
    TimesBelow(f + 1, n, proc.temporalPatchSize);
    VideoLength(proc, frames, h, w, hm, wm, n);
    VideoLength(proc, frames, h, w, hm, wm, n - 1);
    FrameLengthIs(proc, SourceAt(proc, frames, f, h, w), hm, wm);
    JoinSplit(f, i, n, size);
    hide Times, FramePatches, FrameLength, Covers, AllFill;
    TimesSnoc(n - 1, size);
    if f == n - 1 {
      JoinAfter(f, size, i);
    } else {
      VideoPatchesAt(proc, frames, h, w, hm, wm, n - 1, f, i);
    }
  }

  lemma {:induction false} VideoLength(proc: Processor, frames: seq<seq<int>>, h: nat, w: nat, hm: nat, wm: nat, n: nat)
    requires ProcessorOk(proc) && AllFill(frames, h, w) && Times(n, proc.temporalPatchSize) <= |frames|
    requires Covers(proc, hm, wm, h, w)
    ensures n > 0 ==> Times(n - 1, proc.temporalPatchSize) <= |frames|
    ensures |VideoPatches(proc, frames, h, w, hm, wm, n)| == Times(n, FrameLength(proc, hm, wm))
  {
    hide FramePatches, FrameLength, Covers, AllFill;
    TimesSnoc(if n > 0 then n - 1 else 0, FrameLength(proc, hm, wm));
    TimesSnoc(if n > 0 then n - 1 else 0, proc.temporalPatchSize);
    if n > 0 {
      VideoLength(proc, frames, h, w, hm, wm, n - 1);
      FrameLengthIs(proc, SourceAt(proc, frames, n - 1, h, w), hm, wm);
    }
  }

  // ----- the whole buffer against the whole list -----

  /** How many merged blocks a side of that many pixels holds. */
  function MergedSide(proc: Processor, rh: nat): nat
    requires ProcessorOk(proc)
  {
    Quot(Quot(rh, proc.patchSize), proc.mergeSize)
  }

  lemma NestedIndex(f: nat, n: nat, k: nat, size: nat, i: nat)
    ensures Join(Join(f, n, k), size, i) == Join(f, Times(n, size), Join(k, size, i))
  {
    assert (f * n + k) * size == f * (n * size) + k * size;
  }

  /** The position ids of a returned grid are the frame's order, once per temporal patch. */
  lemma IdsOfPatched(proc: Processor, frames: seq<seq<int>>, rh: nat, rw: nat, gridT: nat, out: (seq<real>, Grid))
    requires ProcessorOk(proc) && Patched(proc, frames, rh, rw, gridT, out)
    ensures GridsOk([out.1])
    ensures PositionIds([out.1], proc.mergeSize)
         == Repeated(PatchOrder(MergedSide(proc, rh), MergedSide(proc, rw), proc.mergeSize), gridT)
  {
    hide PatchOrder, Repeated, VideoPatches, Covers, AllFill;
    OneGrid(out.1, proc.mergeSize);
  }

  /** Every value of the returned buffer, over all temporal patches: the row at `k` holds exactly the pixels of the
      `k`-th position id, read from the frames of its own temporal patch. And there are no other rows. */
  lemma EveryPatchAligned(proc: Processor, frames: seq<seq<int>>, rh: nat, rw: nat, gridT: nat, out: (seq<real>, Grid),
                          k: nat, ch: nat, tt: nat, pr: nat, pc: nat)
    requires ProcessorOk(proc) && Patched(proc, frames, rh, rw, gridT, out)
    requires GridsOk([out.1]) && k < |PositionIds([out.1], proc.mergeSize)|
    requires ch < 3 && tt < proc.temporalPatchSize && pr < proc.patchSize && pc < proc.patchSize
    ensures |out.0| == Times(|PositionIds([out.1], proc.mergeSize)|, FeatureSize(proc))
    ensures
      var perFrame := Patches(MergedSide(proc, rh), MergedSide(proc, rw), proc.mergeSize);
      var place := Join(k, FeatureSize(proc), FeatureIndex(proc, ch, tt, pr, pc));
      var cell := PositionIds([out.1], proc.mergeSize)[k];
      && perFrame > 0 && Quot(k, perFrame) < gridT
      && Times(Quot(k, perFrame) + 1, proc.temporalPatchSize) <= |frames|
      && var src := SourceAt(proc, frames, Quot(k, perFrame), rh, rw);
      && CellIn(proc, src, cell) && place < |out.0|
      && out.0[place] == PatchValue(proc, src, cell, ch, tt, pr, pc)
  {
    var m := proc.mergeSize;
    var hm, wm := MergedSide(proc, rh), MergedSide(proc, rw);
    var order := PatchOrder(hm, wm, m);
    BlockSizes(hm, wm, m);
    IdsOfPatched(proc, frames, rh, rw, gridT, out);
    RepeatedSize(order, gridT);
    SplitJoin(k, gridT, |order|);
    var f, k0 := Quot(k, |order|), Rem(k, |order|);
    RepeatedAt(order, gridT, f, k0);
    TimesBelow(f + 1, gridT, proc.temporalPatchSize);
    var src := SourceAt(proc, frames, f, rh, rw);
    PatchKIsCellK(proc, src, hm, wm, k0, ch, tt, pr, pc);
    var i := Join(k0, FeatureSize(proc), FeatureIndex(proc, ch, tt, pr, pc));
    VideoPatchesAt(proc, frames, rh, rw, hm, wm, gridT, f, i);
    NestedIndex(f, |order|, k0, FeatureSize(proc), FeatureIndex(proc, ch, tt, pr, pc));
    ThreeTimes(gridT, |order|, FeatureSize(proc));
  }

  lemma ThreeTimes(a: nat, b: nat, c: nat)
    ensures Times(a, Times(b, c)) == Times(Times(a, b), c)
  {
    assert a * (b * c) == a * b * c;
  }

  // ----- the grid the rest of the assembly receives -----

  /** A successful preprocess returns a grid of whole merged blocks that the tower, the mask and the position
      rows accept. */
  lemma ReturnedGridIsGood(c: Config, proc: Processor, frames: seq<seq<int>>, rh: nat, rw: nat, gridT: nat,
      out: (seq<real>, Grid))
    requires ProcessorOk(proc) && Patched(proc, frames, rh, rw, gridT, out) && rh > 0 && rw > 0 && gridT > 0
    requires c.mergeSize == proc.mergeSize
    ensures GridsOk([out.1]) && GoodGrid(c, out.1) && GoodGrid(c, Grid(1, out.1.h, out.1.w))
    ensures out.1.h % proc.mergeSize == 0 && out.1.w % proc.mergeSize == 0
    ensures TruncDiv(out.1.h, Merge(c)) == MergedSide(proc, rh) > 0
    ensures TruncDiv(out.1.w, Merge(c)) == MergedSide(proc, rw) > 0
    ensures |PositionIds([out.1], proc.mergeSize)| == gridT * (out.1.h * out.1.w)
  {
    hide VideoPatches, AllFill, PatchOrder;
    var m := proc.mergeSize;
    NotZero(MergedSide(proc, rh), m, proc.patchSize);
    NotZero(MergedSide(proc, rw), m, proc.patchSize);
    IdsOfPatched(proc, frames, rh, rw, gridT, out);
    PositionIdsFillFrames([out.1], m);
    assert [out.1][..0] == [];
    assert FrameSizes([]) == [];
    TotalAppend([], gridT, out.1.h * out.1.w);
    assert FrameSizes([out.1]) == [] + seq(gridT, _ => out.1.h * out.1.w);
  }

  lemma NotZero(a: nat, m: nat, p: nat)
    ensures Times(Times(a, m), p) > 0 ==> a > 0
  {
  }

  /** A frame's run among its neighbours: token `q` of it stands where the grid puts it. */
  lemma RunInLayout(before: seq<Block>, b: Block, after: seq<Block>, q: nat)
    requires ValidBlocks(before) && ValidBlock(b) && b.Vision? && ValidBlocks(after) && q < Size(b)
    ensures ValidBlocks(before + [b] + after)
    ensures |Stream(before)| + q < |Layout(before + [b] + after, 0)|
    ensures Layout(before + [b] + after, 0)[|Stream(before)| + q] == GridPos(b.gh, b.gw, Cursor(before, 0), q)
  {
    hide Layout, Stream, Span, Size;
    Assoc(before, [b], after);
    LayoutHead(b, after, Cursor(before, 0));
    LayoutAppend(before, [b] + after, 0);
    LayoutRange(before, 0);
  }

  /** End to end: merged row `q` of temporal patch `f` is made of the patches at positions `k`, and its placeholder, the
      `q`-th token of that frame's run, gets the height and width of exactly that block, wherever the run stands. */
  lemma MergedRowMeetsItsPlaceholder(c: Config, proc: Processor, frames: seq<seq<int>>, rh: nat, rw: nat, gridT: nat,
                                     out: (seq<real>, Grid), f: nat, q: nat, r: nat,
                                     before: seq<Block>, token: int, after: seq<Block>)
    requires ProcessorOk(proc) && Patched(proc, frames, rh, rw, gridT, out) && rh > 0 && rw > 0
    requires c.mergeSize == proc.mergeSize && ValidBlocks(before) && ValidBlocks(after)
    requires f < gridT && q < MergedSide(proc, rh) * MergedSide(proc, rw) && r < proc.mergeSize * proc.mergeSize
    ensures GridsOk([out.1])
    ensures
      var m := proc.mergeSize;
      var ids := PositionIds([out.1], m);
      var k := Join(Join(f, MergedSide(proc, rh) * MergedSide(proc, rw), q), m * m, r);
      var run := RunOf(c, token, Grid(1, out.1.h, out.1.w));
      var cur := Cursor(before, 0);
      && k < |ids| && Patches(MergedSide(proc, rh), MergedSide(proc, rw), m) > 0
      && Quot(k, Patches(MergedSide(proc, rh), MergedSide(proc, rw), m)) == f
      && ValidBlock(run) && ValidBlocks(before + [run] + after)
      && |Stream(before)| + q < |Layout(before + [run] + after, 0)|
      && Layout(before + [run] + after, 0)[|Stream(before)| + q]
         == Pos(cur, cur + ids[k].row / m, cur + ids[k].col / m)
  {
    var m := proc.mergeSize;
    var hm, wm := MergedSide(proc, rh), MergedSide(proc, rw);
    var order := PatchOrder(hm, wm, m);
    var run := RunOf(c, token, Grid(1, out.1.h, out.1.w));
    ReturnedGridIsGood(c, proc, frames, rh, rw, gridT, out);
    IdsOfPatched(proc, frames, rh, rw, gridT, out);
    BlockSizes(hm, wm, m);
    MergedRowMatchesMrope(hm, wm, m, q, r, Cursor(before, 0));
    RepeatedAt(order, gridT, f, Join(q, m * m, r));
    NestedIndex(f, hm * wm, q, m * m, r);
    JoinSplit(f, Join(q, m * m, r), gridT, |order|);
    OneFrame(hm, wm);
    RunInLayout(before, run, after, q);
  }

  lemma OneFrame(gh: nat, gw: nat)
    requires gh > 0 && gw > 0
    ensures Volume(1, gh, gw) == gh * gw
  {
  }
}
