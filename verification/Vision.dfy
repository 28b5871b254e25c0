/** src/models/qwen35_vision.rs, the host-side geometry of the tower: the order of patches, their rotary positions, the
    reordered position table, frame boundaries and the block-diagonal mask, and what one merged row stands for. */
module Vision {
  import opened Arith
  import opened Mrope
  import opened Prelude
  import opened Tables

  /** A patch's place in its frame, in patch units. */
  datatype Cell = Cell(row: nat, col: nat)

  function Square(a: nat, c: nat, m: nat): (out: seq<Cell>)
    ensures |out| == Times(m, m)
  {
    Table(m, m, (b: nat, d: nat) => Cell(Join(a, m, b), Join(c, m, d)))
  }

  function Blocks(hm: nat, wm: nat, m: nat): (out: seq<seq<Cell>>)
    ensures |out| == Times(hm, wm)
  {
    Table(hm, wm, (a: nat, c: nat) => Square(a, c, m))
  }

  /** Merge-block order: blocks row by row, the patches of each block row by row. */
  function PatchOrder(hm: nat, wm: nat, m: nat): seq<Cell>
  {
    Flatten(Blocks(hm, wm, m))
  }

  /** How many patches `hm × wm` blocks hold. */
  function Patches(hm: nat, wm: nat, m: nat): nat { Times(Times(hm, wm), Times(m, m)) }

  lemma BlockSizes(hm: nat, wm: nat, m: nat)
    ensures forall q :: 0 <= q < |Blocks(hm, wm, m)| ==> |Blocks(hm, wm, m)[q]| == Times(m, m)
    ensures |PatchOrder(hm, wm, m)| == Patches(hm, wm, m)
  {
    hide Times;
    forall q: nat | q < |Blocks(hm, wm, m)| ensures |Blocks(hm, wm, m)[q]| == Times(m, m) {
      TableIndex(hm, wm, (a: nat, c: nat) => Square(a, c, m), q);
    }
    FlattenLength(Blocks(hm, wm, m), Times(m, m));
  }

  /** The patch at row `b`, column `d` of block `(a, c)` stands at this place. */
  function PlaceIn(wm: nat, m: nat, a: nat, c: nat, b: nat, d: nat): nat
  {
    Join(Join(a, wm, c), Times(m, m), Join(b, m, d))
  }

  lemma PatchOrderAt(hm: nat, wm: nat, m: nat, a: nat, c: nat, b: nat, d: nat)
    requires a < hm && c < wm && b < m && d < m
    ensures PlaceIn(wm, m, a, c, b, d) < |PatchOrder(hm, wm, m)|
    ensures PatchOrder(hm, wm, m)[PlaceIn(wm, m, a, c, b, d)] == Cell(Join(a, m, b), Join(c, m, d))
  {
    hide Times, Join;
    BlockSizes(hm, wm, m);
    JoinSplit(a, c, hm, wm);
    JoinSplit(b, d, m, m);
    TableAt(hm, wm, (a: nat, c: nat) => Square(a, c, m), a, c);
    TableAt(m, m, (b: nat, d: nat) => Cell(Join(a, m, b), Join(c, m, d)), b, d);
    FlattenUniform(Blocks(hm, wm, m), Times(m, m), Join(a, wm, c), Join(b, m, d));
  }

  /** Where a cell stands in merge-block order. */
  function Place(wm: nat, m: nat, cell: Cell): nat
    requires m > 0
  {
    PlaceIn(wm, m, Quot(cell.row, m), Quot(cell.col, m), Rem(cell.row, m), Rem(cell.col, m))
  }

  /** Every cell of an `hm·m × wm·m` frame appears, at its own place. */
  lemma EveryCellOnce(hm: nat, wm: nat, m: nat, cell: Cell)
    requires m > 0 && cell.row < hm * m && cell.col < wm * m
    ensures Place(wm, m, cell) < |PatchOrder(hm, wm, m)|
    ensures PatchOrder(hm, wm, m)[Place(wm, m, cell)] == cell
  {
    CellAtPlace(hm, wm, m, cell);
  }

  lemma CellAtPlace(hm: nat, wm: nat, m: nat, cell: Cell)
    requires m > 0 && cell.row < Times(hm, m) && cell.col < Times(wm, m)
    ensures Place(wm, m, cell) < |PatchOrder(hm, wm, m)|
    ensures PatchOrder(hm, wm, m)[Place(wm, m, cell)] == cell
  {
    hide Times, Join, Quot, Rem;
    SplitJoin(cell.row, hm, m);
    SplitJoin(cell.col, wm, m);
    PatchOrderAt(hm, wm, m, Quot(cell.row, m), Quot(cell.col, m), Rem(cell.row, m), Rem(cell.col, m));
  }

  /** And nowhere else: the patch at `k` is a cell of the frame whose place is `k`, so the order is a permutation. */
  lemma PlaceOfPatch(hm: nat, wm: nat, m: nat, k: nat)
    requires k < |PatchOrder(hm, wm, m)|
    ensures m > 0
    ensures
      var cell := PatchOrder(hm, wm, m)[k];
      cell.row < Times(hm, m) && cell.col < Times(wm, m) && Place(wm, m, cell) == k
  {
    hide Times, Join, Quot, Rem;
    BlockSizes(hm, wm, m);
    SplitJoin(k, Times(hm, wm), Times(m, m));
    var q, r := Quot(k, Times(m, m)), Rem(k, Times(m, m));
    SplitJoin(q, hm, wm);
    SplitJoin(r, m, m);
    var a, c, b, d := Quot(q, wm), Rem(q, wm), Quot(r, m), Rem(r, m);
    PatchOrderAt(hm, wm, m, a, c, b, d);
    JoinSplit(a, b, hm, m);
    JoinSplit(c, d, wm, m);
  }

  /** Merged row `q` of a frame (patches `q·m²` to `(q+1)·m²`) is the spatial block whose coordinates are exactly the
      height and width offsets its placeholder token gets from the position rows. */
  lemma MergedRowMatchesMrope(hm: nat, wm: nat, m: nat, q: nat, r: nat, cur: int)
    requires q < hm * wm && r < m * m
    ensures m > 0 && wm > 0 && hm > 0
    ensures Join(q, m * m, r) < |PatchOrder(hm, wm, m)|
    ensures
      var cell := PatchOrder(hm, wm, m)[Join(q, m * m, r)];
      GridPos(hm, wm, cur, q) == Pos(cur, cur + cell.row / m, cur + cell.col / m)
  {
    MergedRowIsBlock(hm, wm, m, q, r);
    FrameZero(hm, wm, cur, q);
  }

  lemma MergedRowIsBlock(hm: nat, wm: nat, m: nat, q: nat, r: nat)
    requires q < Times(hm, wm) && r < Times(m, m)
    ensures m > 0 && wm > 0 && hm > 0
    ensures Join(q, Times(m, m), r) < |PatchOrder(hm, wm, m)|
    ensures
      var cell := PatchOrder(hm, wm, m)[Join(q, Times(m, m), r)];
      Quot(cell.row, m) == Quot(q, wm) && Quot(cell.col, m) == Rem(q, wm)
  {
    hide Times, Join, Quot, Rem;
    SplitJoin(q, hm, wm);
    SplitJoin(r, m, m);
    var a, c, b, d := Quot(q, wm), Rem(q, wm), Quot(r, m), Rem(r, m);
    PatchOrderAt(hm, wm, m, a, c, b, d);
    JoinSplit(a, b, hm, m);
    JoinSplit(c, d, wm, m);
  }

  lemma FrameZero(hm: nat, wm: nat, cur: int, q: nat)
    requires hm > 0 && wm > 0 && q < hm * wm
    ensures GridPos(hm, wm, cur, q) == Pos(cur, q / wm + cur, q % wm + cur)
  {
    DivUnique(q, 0, q, hm * wm);
  }

  // ----- the loops -----

  /** One frame's patches, by the four nested loops. */
  method FrameOrder(hm: nat, wm: nat, m: nat) returns (per: seq<Cell>)
    ensures per == PatchOrder(hm, wm, m)
  {
    hide Times;
    ghost var f := (a: nat, c: nat) => Square(a, c, m);
    ghost var blocks: seq<seq<Cell>> := [];
    per := [];
    for a := 0 to hm
      invariant blocks == Table(a, wm, f) && per == Flatten(blocks)
    {
      ghost var before := blocks;
      for c := 0 to wm
        invariant blocks == before + Row(a, c, f) && per == Flatten(blocks)
      {
        ghost var start := per;
        ghost var g := (b: nat, d: nat) => Cell(Join(a, m, b), Join(c, m, d));
        for b := 0 to m
          invariant per == start + Table(b, m, g)
        {
          ghost var line := per;
          for d := 0 to m
            invariant per == line + Row(b, d, g)
          {
            RowSnoc(b, d, g);
            per := per + [Cell(a * m + b, c * m + d)];
          }
        }
        FlattenSnoc(blocks, Square(a, c, m));
        RowSnoc(a, c, f);
        blocks := blocks + [Square(a, c, m)];
      }
    }
  }

  /** A grid as the tower sees it: merged height, merged width, frames. */
  predicate GridOk(g: Grid) { g.t >= 0 && g.h >= 0 && g.w >= 0 }

  predicate GridsOk(grids: seq<Grid>) { forall i :: 0 <= i < |grids| ==> GridOk(grids[i]) }

  /** `n` copies of a list, end to end. */
  function Repeated<T>(per: seq<T>, n: nat): seq<T>
  {
    if n == 0 then [] else Repeated(per, n - 1) + per
  }

  function PositionIds(grids: seq<Grid>, m: nat): seq<Cell>
    requires m > 0 && GridsOk(grids)
  {
    if grids == [] then []
    else
      var g := grids[|grids| - 1];
      PositionIds(grids[..|grids| - 1], m) + Repeated(PatchOrder(g.h / m, g.w / m, m), g.t)
  }

  /** The rotary `(row, col)` of every patch: each frame in merge-block order, once per frame of each grid. */
  method VisionPositionIds(grids: seq<Grid>, m: nat) returns (out: seq<Cell>)
    requires m > 0 && GridsOk(grids)
    ensures out == PositionIds(grids, m)
  {
    hide PatchOrder;
    out := [];
    for i := 0 to |grids|
      invariant out == PositionIds(grids[..i], m)
    {
      var g := grids[i];
      var per := FrameOrder(g.h / m, g.w / m, m);
      ghost var before := out;
      for k := 0 to g.t
        invariant out == before + Repeated(per, k)
      {
        out := out + per;
      }
      assert grids[..i + 1][..i] == grids[..i];
    }
    assert grids[..|grids|] == grids;
  }

  /** A row-major table over the frame, gathered into merge-block order and repeated per frame, as the interpolated
      position table is. */
  method ReorderTable<T>(table: seq<T>, g: Grid, m: nat) returns (out: seq<T>)
    requires m > 0 && GridOk(g) && g.h % m == 0 && g.w % m == 0 && |table| == g.h * g.w
    ensures
      var cells := Repeated(PatchOrder(g.h / m, g.w / m, m), g.t);
      |out| == |cells| && forall k :: 0 <= k < |out| ==>
        0 <= cells[k].row * g.w + cells[k].col < |table| && out[k] == table[cells[k].row * g.w + cells[k].col]
  {
    hide PatchOrder, Times;
    var hm, wm := g.h / m, g.w / m;
    var cells := FrameOrder(hm, wm, m);
    forall k: nat | k < |cells| ensures cells[k].row * g.w + cells[k].col < |table| {
      PlaceOfPatch(hm, wm, m, k);
      InTable(g, m, cells[k]);
    }
    var reorder := seq(|cells|, k requires 0 <= k < |cells| => cells[k].row * g.w + cells[k].col);
    var picked := Pick(table, reorder);
    out := [];
    for k := 0 to g.t
      invariant out == Repeated(picked, k)
    {
      out := out + picked;
    }
    RepeatedMap(table, g.w, cells, picked, g.t);
  }

  lemma InTable(g: Grid, m: nat, cell: Cell)
    requires m > 0 && GridOk(g) && g.h % m == 0 && g.w % m == 0
    requires cell.row < Times(g.h / m, m) && cell.col < Times(g.w / m, m)
    ensures cell.row * g.w + cell.col < g.h * g.w
  {
    assert cell.row < g.h && cell.col < g.w;
    MulMonotone(cell.row + 1, g.h, g.w);
    assert (cell.row + 1) * g.w == cell.row * g.w + g.w;
  }

  function Pick<T>(table: seq<T>, idx: seq<nat>): (out: seq<T>)
    requires forall k :: 0 <= k < |idx| ==> idx[k] < |table|
    ensures |out| == |idx| && forall k :: 0 <= k < |idx| ==> out[k] == table[idx[k]]
  {
    seq(|idx|, k requires 0 <= k < |idx| => table[idx[k]])
  }

  ghost predicate Gathers<T>(table: seq<T>, w: nat, cells: seq<Cell>, out: seq<T>)
  {
    |out| == |cells| && forall k :: 0 <= k < |out| ==>
      0 <= cells[k].row * w + cells[k].col < |table| && out[k] == table[cells[k].row * w + cells[k].col]
  }

  lemma {:induction false} RepeatedMap<T>(table: seq<T>, w: nat, cells: seq<Cell>, picked: seq<T>, n: nat)
    requires Gathers(table, w, cells, picked)
    ensures Gathers(table, w, Repeated(cells, n), Repeated(picked, n))
  {
    if n > 0 {
      RepeatedMap(table, w, cells, picked, n - 1);
    }
  }

  // ----- frames and the mask -----

  function FrameSizes(grids: seq<Grid>): seq<int>
  {
    if grids == [] then []
    else
      var g := grids[|grids| - 1];
      FrameSizes(grids[..|grids| - 1]) + (if g.t <= 0 then [] else seq(g.t, _ => g.h * g.w))
  }

  /** Cumulative per-frame lengths: starting at zero, each next boundary one frame further. */
  method VisionCuSeqlens(grids: seq<Grid>) returns (cu: seq<int>)
    ensures var sizes := FrameSizes(grids);
      |cu| == |sizes| + 1 && cu[0] == 0 && forall b :: 0 <= b < |sizes| ==> cu[b + 1] == cu[b] + sizes[b]
    ensures GridsOk(grids) ==> Boundaries(cu, Total(FrameSizes(grids)))
  {
    cu := [0];
    var acc := 0;
    for i := 0 to |grids|
      invariant var sizes := FrameSizes(grids[..i]);
        |cu| == |sizes| + 1 && cu[0] == 0 && forall b :: 0 <= b < |sizes| ==> cu[b + 1] == cu[b] + sizes[b]
      invariant acc == cu[|cu| - 1]
    {
      var g := grids[i];
      var frame := g.h * g.w;
      ghost var done := FrameSizes(grids[..i]);
      for k := 0 to if g.t < 0 then 0 else g.t
        invariant var sizes := done + seq(k, _ => frame);
          |cu| == |sizes| + 1 && cu[0] == 0 && forall b :: 0 <= b < |sizes| ==> cu[b + 1] == cu[b] + sizes[b]
        invariant acc == cu[|cu| - 1]
      {
        acc := acc + frame;
        cu := cu + [acc];
      }
      assert grids[..i + 1][..i] == grids[..i];
    }
    assert grids[..|grids|] == grids;
    if GridsOk(grids) {
      SizesNonNegative(grids);
      CumulativeIsBoundaries(cu, FrameSizes(grids));
    }
  }

  lemma {:induction false} SizesNonNegative(grids: seq<Grid>)
    requires GridsOk(grids)
    ensures forall b :: 0 <= b < |FrameSizes(grids)| ==> FrameSizes(grids)[b] >= 0
  {
    if grids != [] {
      var g := grids[|grids| - 1];
      MulMonotone(0, g.h, g.w);
      SizesNonNegative(grids[..|grids| - 1]);
    }
  }

  lemma {:induction false} CumulativeIsBoundaries(cu: seq<int>, sizes: seq<int>)
    requires |cu| == |sizes| + 1 && cu[0] == 0
    requires forall b :: 0 <= b < |sizes| ==> sizes[b] >= 0 && cu[b + 1] == cu[b] + sizes[b]
    ensures Total(sizes) >= 0 && Boundaries(cu, Total(sizes))
  {
    if sizes != [] {
      var n := |sizes| - 1;
      CumulativeIsBoundaries(cu[..n + 1], sizes[..n]);
      forall b, c | 0 <= b <= c < |cu| ensures cu[b] <= cu[c] {
        if c <= n {
          assert cu[..n + 1][b] <= cu[..n + 1][c];
        } else if b <= n {
          assert cu[..n + 1][b] <= cu[..n + 1][n];
        }
      }
    }
  }

  function Total(sizes: seq<int>): int
  {
    if sizes == [] then 0 else Total(sizes[..|sizes| - 1]) + sizes[|sizes| - 1]
  }

  lemma {:induction false} TotalAppend(a: seq<int>, n: nat, x: int)
    ensures Total(a + seq(n, _ => x)) == Total(a) + n * x
  {
    var s := a + seq(n, _ => x);
    if n == 0 {
      assert s == a;
    } else {
      assert s[..|s| - 1] == a + seq(n - 1, _ => x);
      TotalAppend(a, n - 1, x);
      assert n * x == (n - 1) * x + x;
    }
  }

  lemma {:induction false} RepeatedLength<T>(per: seq<T>, n: nat)
    ensures |Repeated(per, n)| == n * |per|
  {
    if n > 0 {
      RepeatedLength(per, n - 1);
      assert n * |per| == (n - 1) * |per| + |per|;
    }
  }

  /** Frames of whole blocks: as many positions as the boundaries count. */
  lemma {:induction false} PositionIdsFillFrames(grids: seq<Grid>, m: nat)
    requires m > 0 && GridsOk(grids)
    requires forall i :: 0 <= i < |grids| ==> grids[i].h % m == 0 && grids[i].w % m == 0
    ensures |PositionIds(grids, m)| == Total(FrameSizes(grids))
  {
    hide PatchOrder;
    if grids != [] {
      var g, front := grids[|grids| - 1], grids[..|grids| - 1];
      PositionIdsFillFrames(front, m);
      RepeatedLength(PatchOrder(g.h / m, g.w / m, m), g.t);
      BlockSizes(g.h / m, g.w / m, m);
      PatchesFillFrame(g, m);
      TotalAppend(FrameSizes(front), g.t, g.h * g.w);
      assert g.t <= 0 ==> FrameSizes(front) + [] == FrameSizes(front) == FrameSizes(front) + seq(g.t, _ => g.h * g.w);
    }
  }

  lemma PatchesFillFrame(g: Grid, m: nat)
    requires m > 0 && GridOk(g) && g.h % m == 0 && g.w % m == 0
    ensures Patches(g.h / m, g.w / m, m) == g.h * g.w
  {
    var a, c := g.h / m, g.w / m;
    assert g.h == a * m && g.w == c * m;
    Interchange(a, c, m);
  }

  lemma Interchange(a: int, c: int, m: int)
    ensures a * c * (m * m) == a * m * (c * m)
  {
    assert a * c * (m * m) == a * (c * m) * m;
  }

  /** Ascending boundaries from 0 to `n`. */
  predicate Boundaries(cu: seq<int>, n: int)
  {
    && cu != [] && cu[0] == 0 && cu[|cu| - 1] == n
    && forall b, c :: 0 <= b <= c < |cu| ==> cu[b] <= cu[c]
  }

  /** Patch `i` belongs to frame `b`. */
  predicate InFrame(cu: seq<int>, b: nat, i: int)
  {
    b + 1 < |cu| && cu[b] <= i < cu[b + 1]
  }

  /** Which pairs the mask leaves visible: `None` for a single frame (all of them), else exactly the pairs of one
      frame. */
  method BlockDiagMask(cu: seq<int>, n: nat) returns (keep: Option<seq<seq<bool>>>)
    requires Boundaries(cu, n)
    ensures keep.None? <==> |cu| <= 2
    ensures keep.Some? ==> |keep.value| == n && forall i :: 0 <= i < n ==> |keep.value[i]| == n
    ensures keep.Some? ==> forall i, j, b: nat, c: nat ::
      0 <= i < n && 0 <= j < n && InFrame(cu, b, i) && InFrame(cu, c, j) ==> (keep.value[i][j] <==> b == c)
  {
    if |cu| <= 2 {
      return None;
    }
    var blockOf: seq<nat> := seq(n, _ => 0);
    for b := 0 to |cu| - 1
      invariant |blockOf| == n
      invariant forall i, c: nat :: 0 <= i < n && c < b && InFrame(cu, c, i) ==> blockOf[i] == c
    {
      for j := cu[b] to cu[b + 1]
        invariant |blockOf| == n
        invariant forall i :: cu[b] <= i < j ==> blockOf[i] == b
        invariant forall i, c: nat :: 0 <= i < n && c < b && InFrame(cu, c, i) ==> blockOf[i] == c
      {
        blockOf := blockOf[j := b];
      }
    }
    var data: seq<seq<bool>> := [];
    for i := 0 to n
      invariant |data| == i
      invariant forall x :: 0 <= x < i ==> |data[x]| == n
      invariant forall x, y :: 0 <= x < i && 0 <= y < n ==> data[x][y] == (blockOf[x] == blockOf[y])
    {
      var line: seq<bool> := [];
      for j := 0 to n
        invariant |line| == j && forall y :: 0 <= y < j ==> line[y] == (blockOf[i] == blockOf[y])
      {
        line := line + [blockOf[i] == blockOf[j]];
      }
      data := data + [line];
    }
    keep := Some(data);
  }
}
