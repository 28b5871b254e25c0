/** src/models/deepstack.rs (`mrope_positions_mm`, shared by both decoders; src/models/qwen35.rs holds a copy): the
    three interleaved position rows of a prompt with image and video runs.

    The reference meaning is a prompt cut into blocks, each either one text token or one whole vision run laid over its
    own grid. `Parse` recovers the blocks from the flat token stream; `Layout` gives each block its positions. */
module Mrope {
  import opened Arith
  import opened Prelude

  /** A `[t, h, w]` grid in patch units. */
  datatype Grid = Grid(t: int, h: int, w: int)

  /** A temporal, height and width position. */
  datatype Pos = Pos(t: int, h: int, w: int)

  datatype Block = Text(id: int) | Vision(token: int, gt: int, gh: int, gw: int)

  datatype MropeError =
    | BadVideoGrid
    | MoreRunsThanGrids(image: bool)
    | BadGrid(image: bool)
    | RunLengthMismatch(image: bool, run: nat, count: nat)

  /** The placeholder ids and the (already clamped) merge size of a model. */
  datatype Config = Config(imageToken: int, videoToken: int, mergeSize: int)

  function Merge(c: Config): (m: int)
    ensures m >= 1
  {
    Max(c.mergeSize, 1)
  }

  predicate IsVision(c: Config, id: int) { id == c.imageToken || id == c.videoToken }

  /** Integer division truncating toward zero. */
  function TruncDiv(a: int, b: int): int
    requires b > 0
  {
    if a >= 0 then a / b else -((-a) / b)
  }

  // ----- blocks and their positions -----

  predicate ValidBlock(b: Block) { b.Vision? ==> b.gt > 0 && b.gh > 0 && b.gw > 0 }

  predicate ValidBlocks(blocks: seq<Block>) { forall i :: 0 <= i < |blocks| ==> ValidBlock(blocks[i]) }

  function Size(b: Block): (n: nat)
    requires ValidBlock(b)
    ensures n >= 1
  {
    if b.Text? then 1 else Volume(b.gt, b.gh, b.gw)
  }

  function Volume(gt: int, gh: int, gw: int): (n: nat)
    requires gt > 0 && gh > 0 && gw > 0
    ensures n == gt * gh * gw && n >= gt && n >= gh && n >= gw
  {
    Product(gt, gh);
    Product(gt * gh, gw);
    gt * gh * gw
  }

  /** How far a block moves the shared cursor. */
  function Span(b: Block): (n: int)
    requires ValidBlock(b)
    ensures 1 <= n <= Size(b)
  {
    if b.Text? then 1 else Max(Max(b.gt, b.gh), b.gw)
  }

  function Tokens(b: Block): (out: seq<int>)
    requires ValidBlock(b)
    ensures |out| == Size(b)
    ensures forall k :: 0 <= k < |out| ==> out[k] == if b.Text? then b.id else b.token
  {
    seq(Size(b), _ => if b.Text? then b.id else b.token)
  }

  /** The `k`-th position of a run over a grid with rows `gw` wide and frames `gh` high, from cursor `cur`. */
  function GridPos(gh: int, gw: int, cur: int, k: nat): Pos
    requires gh > 0 && gw > 0
  {
    Product(gh, gw);
    var frame := gh * gw;
    Pos(k / frame + cur, k % frame / gw + cur, k % frame % gw + cur)
  }

  function BlockPositions(b: Block, cur: int): (out: seq<Pos>)
    requires ValidBlock(b)
    ensures |out| == Size(b)
  {
    if b.Text? then [Pos(cur, cur, cur)]
    else seq(Size(b), k requires 0 <= k => GridPos(b.gh, b.gw, cur, k))
  }

  function Stream(blocks: seq<Block>): seq<int>
    requires ValidBlocks(blocks)
  {
    if blocks == [] then [] else Tokens(blocks[0]) + Stream(blocks[1..])
  }

  /** The cursor after a list of blocks. */
  function Cursor(blocks: seq<Block>, cur: int): int
    requires ValidBlocks(blocks)
  {
    if blocks == [] then cur else Cursor(blocks[1..], cur + Span(blocks[0]))
  }

  function Layout(blocks: seq<Block>, cur: int): seq<Pos>
    requires ValidBlocks(blocks)
  {
    if blocks == [] then [] else BlockPositions(blocks[0], cur) + Layout(blocks[1..], cur + Span(blocks[0]))
  }

  predicate Within(p: Pos, lo: int, hi: int)
  {
    lo <= p.t < hi && lo <= p.h < hi && lo <= p.w < hi
  }

  /** A run stays within its span of the cursor and its last token reaches the end of it. */
  lemma GridPosRange(gt: int, gh: int, gw: int, cur: int, k: nat)
    requires gt > 0 && gh > 0 && gw > 0 && k < Volume(gt, gh, gw)
    ensures
      var p := GridPos(gh, gw, cur, k);
      && cur <= p.t < cur + gt
      && cur <= p.h < cur + gh
      && cur <= p.w < cur + gw
      && (k == Volume(gt, gh, gw) - 1 ==> p == Pos(cur + gt - 1, cur + gh - 1, cur + gw - 1))
  {
    Product(gh, gw);
    var frame := gh * gw;
    assert gt * gh * gw == gt * frame;
    DivRange(k, gt, frame);
    DivRange(k % frame, gh, gw);
    DivLast(gt, frame);
    DivLast(gh, gw);
  }

  lemma BlockRange(b: Block, cur: int)
    requires ValidBlock(b)
    ensures forall k :: 0 <= k < Size(b) ==> Within(BlockPositions(b, cur)[k], cur, cur + Span(b))
    ensures var p := BlockPositions(b, cur)[Size(b) - 1]; Max(Max(p.t, p.h), p.w) == cur + Span(b) - 1
  {
    if b.Vision? {
      forall k: nat | k < Size(b)
        ensures Within(BlockPositions(b, cur)[k], cur, cur + Span(b))
      {
        GridPosRange(b.gt, b.gh, b.gw, cur, k);
      }
      GridPosRange(b.gt, b.gh, b.gw, cur, Size(b) - 1);
    }
  }

  /** On every prompt: as many positions as tokens, all below the final cursor, which is one more than the largest of
      them and never exceeds the number of tokens passed. */
  lemma {:induction false} LayoutRange(blocks: seq<Block>, cur: int)
    requires ValidBlocks(blocks)
    ensures |Layout(blocks, cur)| == |Stream(blocks)|
    ensures cur <= Cursor(blocks, cur) <= cur + |Stream(blocks)|
    ensures forall i :: 0 <= i < |Layout(blocks, cur)| ==> Within(Layout(blocks, cur)[i], cur, Cursor(blocks, cur))
    ensures blocks != [] ==>
      var l := Layout(blocks, cur);
      l != [] && var p := l[|l| - 1]; Max(Max(p.t, p.h), p.w) == Cursor(blocks, cur) - 1
  {
    hide BlockPositions, Tokens, Span, Size;
    if blocks != [] {
      BlockRange(blocks[0], cur);
      LayoutRange(blocks[1..], cur + Span(blocks[0]));
      var l, head := Layout(blocks, cur), BlockPositions(blocks[0], cur);
      assert blocks[1..] == [] ==> l == head;
      forall i | 0 <= i < |l| ensures Within(l[i], cur, Cursor(blocks, cur)) {
        if i < |head| {
          assert l[i] == head[i];
        }
      }
    }
  }

  /** Prepending one block. */
  lemma LayoutHead(x: Block, a: seq<Block>, cur: int)
    requires ValidBlock(x) && ValidBlocks(a)
    ensures ValidBlocks([x] + a)
    ensures Layout([x] + a, cur) == BlockPositions(x, cur) + Layout(a, cur + Span(x))
    ensures Cursor([x] + a, cur) == Cursor(a, cur + Span(x))
    ensures Stream([x] + a) == Tokens(x) + Stream(a)
  {
    hide BlockPositions, Tokens, Span, Size, ValidBlock;
    assert ([x] + a)[1..] == a;
  }

  lemma {:induction false} LayoutAppend(a: seq<Block>, b: seq<Block>, cur: int)
    requires ValidBlocks(a) && ValidBlocks(b)
    ensures ValidBlocks(a + b)
    ensures Layout(a + b, cur) == Layout(a, cur) + Layout(b, Cursor(a, cur))
    ensures Cursor(a + b, cur) == Cursor(b, Cursor(a, cur))
    ensures Stream(a + b) == Stream(a) + Stream(b)
  {
    if a == [] {
      assert a + b == b;
    } else {
      LayoutAppend(a[1..], b, cur + Span(a[0]));
      LayoutAppendStep(a[0], a[1..], b, cur);
      assert [a[0]] + a[1..] == a;
    }
  }

  lemma LayoutAppendStep(x: Block, a: seq<Block>, b: seq<Block>, cur: int)
    requires ValidBlock(x) && ValidBlocks(a) && ValidBlocks(b) && ValidBlocks(a + b)
    requires Layout(a + b, cur + Span(x)) == Layout(a, cur + Span(x)) + Layout(b, Cursor(a, cur + Span(x)))
    requires Cursor(a + b, cur + Span(x)) == Cursor(b, Cursor(a, cur + Span(x)))
    requires Stream(a + b) == Stream(a) + Stream(b)
    ensures ValidBlocks([x] + a + b) && ValidBlocks([x] + a)
    ensures Layout([x] + a + b, cur) == Layout([x] + a, cur) + Layout(b, Cursor([x] + a, cur))
    ensures Cursor([x] + a + b, cur) == Cursor(b, Cursor([x] + a, cur))
    ensures Stream([x] + a + b) == Stream([x] + a) + Stream(b)
  {
    hide *;
    Assoc([x], a, b);
    LayoutHead(x, a + b, cur);
    LayoutHead(x, a, cur);
    Assoc(BlockPositions(x, cur), Layout(a, cur + Span(x)), Layout(b, Cursor(a, cur + Span(x))));
    Assoc(Tokens(x), Stream(a), Stream(b));
  }

  /** Every block's positions exceed every earlier position, on all three axes at once. */
  lemma LaterBlocksExceedEarlier(before: seq<Block>, b: Block, after: seq<Block>, cur: int)
    requires ValidBlocks(before) && ValidBlock(b) && ValidBlocks(after)
    ensures ValidBlocks(before + [b] + after)
    ensures forall i, j :: 0 <= i < |Stream(before)| <= j < |Stream(before)| + Size(b) ==>
      var l := Layout(before + [b] + after, cur);
      j < |l| && forall x, y :: Axis(l[i], x) && Axis(l[j], y) ==> x < y
  {
    hide BlockPositions, Tokens, Span, Size, Layout, Cursor, Stream;
    assert ValidBlocks([b]);
    LayoutAppend(before, [b], cur);
    LayoutAppend(before + [b], after, cur);
    LayoutRange(before, cur);
    var c := Cursor(before, cur);
    OneBlock(b, c);
    BlockRange(b, c);
  }

  predicate Axis(p: Pos, x: int) { x == p.t || x == p.h || x == p.w }

  // ----- parsing the flat stream -----

  /** The number of leading tokens equal to `id`. */
  function RunLength(ids: seq<int>, id: int): (n: nat)
    ensures n <= |ids| && (forall k :: 0 <= k < n ==> ids[k] == id) && (n < |ids| ==> ids[n] != id)
  {
    if ids == [] || ids[0] != id then 0 else 1 + RunLength(ids[1..], id)
  }

  /** The block a run over `g` stands for, or the reason it cannot be one. */
  function GridBlock(c: Config, id: int, g: Grid, ids: seq<int>): (r: Result<Block, MropeError>)
    ensures r.Ok? ==> r.value.Vision? && ValidBlock(r.value) && Size(r.value) <= |ids| && r.value.token == id
  {
    var image := id == c.imageToken;
    var gh, gw := TruncDiv(g.h, Merge(c)), TruncDiv(g.w, Merge(c));
    if g.t <= 0 || gh <= 0 || gw <= 0 then Err(BadGrid(image))
    else
      var count, run := Volume(g.t, gh, gw), RunLength(ids, id);
      if run != count then Err(RunLengthMismatch(image, run, count)) else Ok(Vision(id, g.t, gh, gw))
  }

  function Prepend(done: seq<Block>, r: Result<seq<Block>, MropeError>): Result<seq<Block>, MropeError>
  {
    if r.Err? then r else Ok(done + r.value)
  }

  /** Cut a token stream into blocks, taking one image grid per image run and one frame grid per video run. */
  function Parse(c: Config, ids: seq<int>, images: seq<Grid>, frames: seq<Grid>): (r: Result<seq<Block>, MropeError>)
    ensures r.Ok? ==> ValidBlocks(r.value)
    decreases |ids|
  {
    if ids == [] then Ok([])
    else if !IsVision(c, ids[0]) then Prepend([Text(ids[0])], Parse(c, ids[1..], images, frames))
    else
      var image := ids[0] == c.imageToken;
      var grids := if image then images else frames;
      if grids == [] then Err(MoreRunsThanGrids(image))
      else
        var b := GridBlock(c, ids[0], grids[0], ids);
        if b.Err? then Err(b.error)
        else
          var rest := ids[Size(b.value)..];
          Prepend([b.value],
            if image then Parse(c, rest, images[1..], frames) else Parse(c, rest, images, frames[1..]))
  }

  /** The blocks a parse returns spell exactly the tokens it was given. */
  lemma {:induction false} ParseIsSound(c: Config, ids: seq<int>, images: seq<Grid>, frames: seq<Grid>)
    requires Parse(c, ids, images, frames).Ok?
    ensures Stream(Parse(c, ids, images, frames).value) == ids
    decreases |ids|
  {
    hide GridBlock, Tokens, Size;
    if ids != [] {
      var blocks := Parse(c, ids, images, frames).value;
      if !IsVision(c, ids[0]) {
        ParseIsSound(c, ids[1..], images, frames);
        TextTokens(ids[0]);
        assert blocks == [Text(ids[0])] + Parse(c, ids[1..], images, frames).value;
        assert ids == Tokens(blocks[0]) + ids[1..];
      } else {
        var image := ids[0] == c.imageToken;
        var b := GridBlock(c, ids[0], if image then images[0] else frames[0], ids).value;
        var rest := ids[Size(b)..];
        var images', frames' := if image then images[1..] else images, if image then frames else frames[1..];
        ParseIsSound(c, rest, images', frames');
        var tail := Parse(c, rest, images', frames').value;
        assert blocks == [b] + tail;
        GridBlockTokens(c, ids[0], if image then images[0] else frames[0], ids);
        assert ids == Tokens(b) + rest;
      }
    }
  }

  lemma TextTokens(id: int)
    ensures Tokens(Text(id)) == [id]
  {
  }

  lemma GridBlockTokens(c: Config, id: int, g: Grid, ids: seq<int>)
    requires GridBlock(c, id, g, ids).Ok?
    ensures var b := GridBlock(c, id, g, ids).value; Tokens(b) == ids[..Size(b)]
  {
  }

  /** Block `b` is what grid `g` describes. */
  predicate Describes(c: Config, g: Grid, b: Block)
  {
    b.Vision? && g.t == b.gt && TruncDiv(g.h, Merge(c)) == b.gh && TruncDiv(g.w, Merge(c)) == b.gw
  }

  /** A prompt as the processor builds one: placeholder runs where grids say, no two runs of one token touching. */
  predicate Rendered(c: Config, blocks: seq<Block>, images: seq<Grid>, frames: seq<Grid>)
  {
    && ValidBlocks(blocks)
    && (blocks == [] ||
        var b := blocks[0];
        if b.Text? then !IsVision(c, b.id) && Rendered(c, blocks[1..], images, frames)
        else
          && (|blocks| > 1 && blocks[1].Vision? ==> blocks[1].token != b.token)
          && (if b.token == c.imageToken
              then images != [] && Describes(c, images[0], b) && Rendered(c, blocks[1..], images[1..], frames)
              else b.token == c.videoToken && frames != [] && Describes(c, frames[0], b)
                   && Rendered(c, blocks[1..], images, frames[1..])))
  }

  lemma {:induction false} RunStops(c: Config, b: Block, blocks: seq<Block>, images: seq<Grid>, frames: seq<Grid>)
    requires ValidBlock(b) && b.Vision? && IsVision(c, b.token) && Rendered(c, blocks, images, frames)
    requires blocks != [] && blocks[0].Vision? ==> blocks[0].token != b.token
    ensures RunLength(Tokens(b) + Stream(blocks), b.token) == Size(b)
  {
    var ids := Tokens(b) + Stream(blocks);
    if blocks != [] {
      assert ids[Size(b)] == Tokens(blocks[0])[0];
    }
  }

  /** Round trip: parsing the tokens of a rendered prompt gives back its blocks, so such a prompt never errs. */
  lemma {:induction false} ParseOfRendered(c: Config, blocks: seq<Block>, images: seq<Grid>, frames: seq<Grid>)
    requires Rendered(c, blocks, images, frames)
    ensures Parse(c, Stream(blocks), images, frames) == Ok(blocks)
  {
    if blocks != [] {
      var b, ids := blocks[0], Stream(blocks);
      assert ids[0] == Tokens(b)[0];
      assert ids[Size(b)..] == Stream(blocks[1..]);
      assert [b] + blocks[1..] == blocks;
      if b.Text? {
        ParseOfRendered(c, blocks[1..], images, frames);
      } else if b.token == c.imageToken {
        RunStops(c, b, blocks[1..], images[1..], frames);
        ParseOfRendered(c, blocks[1..], images[1..], frames);
        assert GridBlock(c, ids[0], images[0], ids) == Ok(b);
      } else {
        RunStops(c, b, blocks[1..], images, frames[1..]);
        ParseOfRendered(c, blocks[1..], images, frames[1..]);
        assert GridBlock(c, ids[0], frames[0], ids) == Ok(b);
      }
    }
  }

  // ----- the implementation -----

  /** `[t, h, w]` video grids as `t` single-frame grids each. */
  function Frames(grids: seq<Grid>): seq<Grid>
  {
    if grids == [] then []
    else
      var g := grids[|grids| - 1];
      Frames(grids[..|grids| - 1]) + (if g.t <= 0 then [] else seq(g.t, _ => Grid(1, g.h, g.w)))
  }

  method VideoFrames(grids: seq<Grid>) returns (r: Result<seq<Grid>, MropeError>)
    ensures r.Err? <==> exists i :: 0 <= i < |grids| && grids[i].t <= 0
    ensures r.Err? ==> r.error == BadVideoGrid
    ensures r.Ok? ==> r.value == Frames(grids)
  {
    var frames: seq<Grid> := [];
    for i := 0 to |grids|
      invariant frames == Frames(grids[..i])
      invariant forall k :: 0 <= k < i ==> grids[k].t > 0
    {
      var g := grids[i];
      if g.t <= 0 {
        return Err(BadVideoGrid);
      }
      ghost var before := frames;
      for k := 0 to g.t
        invariant frames == before + seq(k, _ => Grid(1, g.h, g.w))
      {
        frames := frames + [Grid(1, g.h, g.w)];
      }
      assert grids[..i + 1][..i] == grids[..i];
    }
    assert grids[..|grids|] == grids;
    r := Ok(frames);
  }

  /** The three rows and the offset by which decoding continues after the prompt. */
  datatype Positions = Positions(t: seq<int>, h: seq<int>, w: seq<int>, delta: int)

  ghost predicate RowsAre(t: seq<int>, h: seq<int>, w: seq<int>, l: seq<Pos>)
  {
    && |t| == |h| == |w| == |l|
    && forall i :: 0 <= i < |l| ==> l[i] == Pos(t[i], h[i], w[i])
  }

  /** The largest of a row's values, or -1 for an empty one. */
  function MaxOrMinusOne(s: seq<int>): (m: int)
    ensures s == [] ==> m == -1
    ensures s != [] ==> m in s && forall i :: 0 <= i < |s| ==> s[i] <= m
  {
    if s == [] then -1
    else
      var rest := MaxOrMinusOne(s[1..]);
      assert forall i :: 1 <= i < |s| ==> s[i] == s[1..][i - 1];
      if |s| == 1 || s[0] > rest then s[0] else rest
  }

  lemma MaxIsCursor(blocks: seq<Block>, t: seq<int>, h: seq<int>, w: seq<int>)
    requires ValidBlocks(blocks) && RowsAre(t, h, w, Layout(blocks, 0))
    ensures MaxOrMinusOne(t + h + w) == Cursor(blocks, 0) - 1
  {
    hide Layout, Cursor, Stream;
    LayoutRange(blocks, 0);
    NothingYet();
    var l, all := Layout(blocks, 0), t + h + w;
    if l == [] {
      assert all == [];
      assert blocks == [];
    } else {
      assert blocks != [];
      var n := |l|;
      var m := MaxOrMinusOne(all);
      var p := l[n - 1];
      assert all[n - 1] == p.t && all[2 * n - 1] == p.h && all[3 * n - 1] == p.w;
      var i :| 0 <= i < |all| && all[i] == m;
      assert Within(l[i % n], 0, Cursor(blocks, 0));
      assert m == if i < n then t[i] else if i < 2 * n then h[i - n] else w[i - 2 * n];
      assert i % n == if i < n then i else if i < 2 * n then i - n else i - 2 * n by {
        DivUnique(i, if i < n then 0 else if i < 2 * n then 1 else 2,
                  if i < n then i else if i < 2 * n then i - n else i - 2 * n, n);
      }
    }
  }

  /** The rows of an accepted stream are the layout of its blocks; it is accepted exactly when it parses, and the first
      fault found decides the error. The offset is the cursor minus the length, so at most zero. */
  method MropePositionsMm(c: Config, ids: seq<int>, images: seq<Grid>, videos: seq<Grid>)
    returns (r: Result<Positions, MropeError>)
    ensures (exists i :: 0 <= i < |videos| && videos[i].t <= 0) ==> r == Err(BadVideoGrid)
    ensures !(exists i :: 0 <= i < |videos| && videos[i].t <= 0) ==>
      match Parse(c, ids, images, Frames(videos))
      case Err(e) => r == Err(e)
      case Ok(blocks) =>
        && r.Ok?
        && RowsAre(r.value.t, r.value.h, r.value.w, Layout(blocks, 0))
        && |r.value.t| == |ids|
        && r.value.delta == Cursor(blocks, 0) - |ids| <= 0
  {
    hide Layout, RowsAre, Cursor, RunLength, Tokens, Stream, BlockPositions, Parse, Prepend;
    var merge := Max(c.mergeSize, 1);
    var framesOr := VideoFrames(videos);
    if framesOr.Err? {
      return Err(framesOr.error);
    }
    var frames := framesOr.value;
    ghost var parse := Parse(c, ids, images, frames);
    ghost var done: seq<Block> := [];
    var t: seq<int>, h: seq<int>, w: seq<int> := [], [], [];
    var cur, i, imgI, vidI := 0, 0, 0, 0;
    NothingYet();
    assert ids[0..] == ids && images[0..] == images && frames[0..] == frames;
    PrependNothing(parse);
    while i < |ids|
      invariant 0 <= i <= |ids| && 0 <= imgI <= |images| && 0 <= vidI <= |frames|
      invariant ValidBlocks(done) && RowsAre(t, h, w, Layout(done, 0)) && cur == Cursor(done, 0)
      invariant parse == Prepend(done, Parse(c, ids[i..], images[imgI..], frames[vidI..]))
    {
      var id := ids[i];
      var isImage := id == c.imageToken;
      var isVideo := !isImage && id == c.videoToken;
      if isImage || isVideo {
        StepVision(c, done, ids, images[imgI..], frames[vidI..], i);
        var grid: Grid;
        if isImage {
          if imgI >= |images| {
            return Err(MoreRunsThanGrids(true));
          }
          grid := images[imgI];
          assert images[imgI..][1..] == images[imgI + 1..];
          imgI := imgI + 1;
        } else {
          if vidI >= |frames| {
            return Err(MoreRunsThanGrids(false));
          }
          grid := frames[vidI];
          assert frames[vidI..][1..] == frames[vidI + 1..];
          vidI := vidI + 1;
        }
        var gt, gh, gw := grid.t, TruncDiv(grid.h, merge), TruncDiv(grid.w, merge);
        if gt <= 0 || gh <= 0 || gw <= 0 {
          return Err(BadGrid(isImage));
        }
        var count := Volume(gt, gh, gw);
        var run := RunLength(ids[i..], id);
        if run != count {
          return Err(RunLengthMismatch(isImage, run, count));
        }
        t, h, w := PushRun(gt, gh, gw, count, cur, t, h, w, done, id);
        done := done + [Vision(id, gt, gh, gw)];
        cur := cur + Max(Max(gt, gh), gw);
        i := i + count;
      } else {
        PushText(done, id, t, h, w);
        StepText(c, done, ids, images[imgI..], frames[vidI..], i);
        done := done + [Text(id)];
        t, h, w := t + [cur], h + [cur], w + [cur];
        cur := cur + 1;
        i := i + 1;
      }
    }
    assert ids[i..] == [];
    ParseNothing(c, done, images[imgI..], frames[vidI..]);
    ParseIsSound(c, ids, images, frames);
    LayoutRange(done, 0);
    MaxIsCursor(done, t, h, w);
    SameLength(t, h, w, Layout(done, 0));
    r := Ok(Positions(t, h, w, MaxOrMinusOne(t + h + w) + 1 - |ids|));
  }

  lemma AdvanceParse(done: seq<Block>, b: Block, rest: Result<seq<Block>, MropeError>)
    ensures Prepend(done, Prepend([b], rest)) == Prepend(done + [b], rest)
  {
    if rest.Ok? {
      assert done + ([b] + rest.value) == done + [b] + rest.value;
    }
  }

  lemma PrependNothing(r: Result<seq<Block>, MropeError>)
    ensures Prepend([], r) == r
  {
    assert r.Ok? ==> [] + r.value == r.value;
  }

  lemma ParseNothing(c: Config, done: seq<Block>, images: seq<Grid>, frames: seq<Grid>)
    ensures Prepend(done, Parse(c, [], images, frames)) == Ok(done)
  {
    assert done + [] == done;
  }

  lemma StepText(c: Config, done: seq<Block>, ids: seq<int>, images: seq<Grid>, frames: seq<Grid>, i: nat)
    requires i < |ids| && !IsVision(c, ids[i])
    ensures Prepend(done, Parse(c, ids[i..], images, frames))
         == Prepend(done + [Text(ids[i])], Parse(c, ids[i + 1..], images, frames))
  {
    assert ids[i..][1..] == ids[i + 1..];
    AdvanceParse(done, Text(ids[i]), Parse(c, ids[i + 1..], images, frames));
  }

  /** How the parse goes on at a placeholder, with `images` and `frames` the grids not yet used. */
  lemma StepVision(c: Config, done: seq<Block>, ids: seq<int>, images: seq<Grid>, frames: seq<Grid>, i: nat)
    requires i < |ids| && IsVision(c, ids[i])
    ensures
      var image := ids[i] == c.imageToken;
      var grids := if image then images else frames;
      var parse := Prepend(done, Parse(c, ids[i..], images, frames));
      if grids == [] then parse == Err(MoreRunsThanGrids(image))
      else
        var b := GridBlock(c, ids[i], grids[0], ids[i..]);
        if b.Err? then parse == Err(b.error)
        else
          var rest := ids[i + Size(b.value)..];
          parse == Prepend(done + [b.value],
            if image then Parse(c, rest, images[1..], frames) else Parse(c, rest, images, frames[1..]))
  {
    hide GridBlock;
    var image := ids[i] == c.imageToken;
    var grids := if image then images else frames;
    if grids != [] {
      var b := GridBlock(c, ids[i], grids[0], ids[i..]);
      if b.Ok? {
        var rest := ids[i + Size(b.value)..];
        assert ids[i..][Size(b.value)..] == rest;
        AdvanceParse(done, b.value,
          if image then Parse(c, rest, images[1..], frames) else Parse(c, rest, images, frames[1..]));
      }
    }
  }

  lemma OneBlock(b: Block, cur: int)
    requires ValidBlock(b)
    ensures ValidBlocks([b]) && Layout([b], cur) == BlockPositions(b, cur) && Cursor([b], cur) == cur + Span(b)
    ensures Stream([b]) == Tokens(b)
  {
    assert [b][1..] == [];
  }

  lemma SameLength(t: seq<int>, h: seq<int>, w: seq<int>, l: seq<Pos>)
    requires RowsAre(t, h, w, l)
    ensures |t| == |l|
  {
  }

  lemma NothingYet()
    ensures RowsAre([], [], [], Layout([], 0)) && Cursor([], 0) == 0
  {
  }

  lemma PushText(done: seq<Block>, id: int, t: seq<int>, h: seq<int>, w: seq<int>)
    requires ValidBlocks(done) && RowsAre(t, h, w, Layout(done, 0))
    ensures var b, cur := Text(id), Cursor(done, 0);
      && ValidBlocks(done + [b])
      && RowsAre(t + [cur], h + [cur], w + [cur], Layout(done + [b], 0))
      && Cursor(done + [b], 0) == cur + 1
  {
    var cur := Cursor(done, 0);
    PushBlock(done, Text(id), t, h, w, t + [cur], h + [cur], w + [cur]);
  }

  lemma RowsAppend(t: seq<int>, h: seq<int>, w: seq<int>, l: seq<Pos>, t': seq<int>, h': seq<int>, w': seq<int>,
      l': seq<Pos>)
    requires RowsAre(t, h, w, l) && RowsAre(t', h', w', l')
    ensures RowsAre(t + t', h + h', w + w', l + l')
  {
  }

  lemma PushBlock(done: seq<Block>, b: Block, t: seq<int>, h: seq<int>, w: seq<int>,
                  t': seq<int>, h': seq<int>, w': seq<int>)
    requires ValidBlocks(done) && ValidBlock(b) && RowsAre(t, h, w, Layout(done, 0))
    requires |t'| == |t| + Size(b) && t <= t' && h <= h' && w <= w'
    requires RowsAre(t'[|t|..], h'[|h|..], w'[|w|..], BlockPositions(b, Cursor(done, 0)))
    ensures ValidBlocks(done + [b]) && RowsAre(t', h', w', Layout(done + [b], 0))
    ensures Cursor(done + [b], 0) == Cursor(done, 0) + Span(b)
  {
    hide BlockPositions, Span, Size, Layout, Cursor, Stream;
    LayoutAppend(done, [b], 0);
    OneBlock(b, Cursor(done, 0));
    RowsAppend(t, h, w, Layout(done, 0), t'[|t|..], h'[|h|..], w'[|w|..], BlockPositions(b, Cursor(done, 0)));
    assert t' == t + t'[|t|..] && h' == h + h'[|h|..] && w' == w + w'[|w|..];
  }

  /** Lay one vision run over its grid. */
  method PushRun(gt: int, gh: int, gw: int, count: nat, cur: int, t0: seq<int>, h0: seq<int>, w0: seq<int>,
                 ghost done: seq<Block>, id: int)
    returns (t: seq<int>, h: seq<int>, w: seq<int>)
    requires gt > 0 && gh > 0 && gw > 0 && count == Volume(gt, gh, gw)
    requires ValidBlocks(done) && RowsAre(t0, h0, w0, Layout(done, 0)) && cur == Cursor(done, 0)
    ensures
      var b := Vision(id, gt, gh, gw);
      && ValidBlocks(done + [b])
      && RowsAre(t, h, w, Layout(done + [b], 0))
      && Cursor(done + [b], 0) == cur + Max(Max(gt, gh), gw)
  {
    ghost var b := Vision(id, gt, gh, gw);
    Product(gh, gw);
    var frame := gh * gw;
    t, h, w := t0, h0, w0;
    for k := 0 to count
      invariant |t| == |h| == |w| == |t0| + k && t0 <= t && h0 <= h && w0 <= w
      invariant forall j :: 0 <= j < k ==> BlockPositions(b, cur)[j] == Pos(t[|t0| + j], h[|t0| + j], w[|t0| + j])
    {
      t := t + [k / frame + cur];
      var rem := k % frame;
      h := h + [rem / gw + cur];
      w := w + [rem % gw + cur];
    }
    PushBlock(done, b, t0, h0, w0, t, h, w);
  }

  /** A text-only prompt counts every token once on all three axes and continues with offset zero. */
  lemma {:induction false} TextOnly(c: Config, ids: seq<int>, images: seq<Grid>, frames: seq<Grid>, cur: int)
    requires forall i :: 0 <= i < |ids| ==> !IsVision(c, ids[i])
    ensures var r := Parse(c, ids, images, frames);
      && r.Ok?
      && Cursor(r.value, cur) == cur + |ids|
      && |Layout(r.value, cur)| == |ids|
      && forall i :: 0 <= i < |ids| ==> Layout(r.value, cur)[i] == Pos(cur + i, cur + i, cur + i)
    decreases |ids|
  {
    if ids != [] {
      TextOnly(c, ids[1..], images, frames, cur + 1);
      var r := Parse(c, ids, images, frames);
      assert r.value[1..] == Parse(c, ids[1..], images, frames).value;
    }
  }
}
