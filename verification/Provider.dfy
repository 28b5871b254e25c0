/** src/provider.rs: assembling a multimodal prefill, and the per-frame timestamps of a video. `T` is a row. */
module Provider {
  import opened Arith
  import opened Expand
  import opened Mrope
  import opened Prelude
  import opened Splice

  // ----- timestamps -----

  /** Temporal patches of `n` frames folded `t` at a time, the last one padded. */
  function GridT(n: nat, t: nat): (k: nat)
    requires t >= 1
    ensures n <= k * t < n + t
  {
    assert (n + t - 1) / t * t + (n + t - 1) % t == n + t - 1;
    (n + t - 1) / t
  }

  /** The `k`-th timestamp of a list padded by repeating its last. */
  function PaddedAt(ts: seq<real>, k: nat): real
    requires ts != []
  {
    if k < |ts| then ts[k] else ts[|ts| - 1]
  }

  lemma FirstMultiple(n: nat, len: nat, t: nat)
    requires t >= 1 && n <= len < n + t && len % t == 0
    ensures len == GridT(n, t) * t
  {
    var k := GridT(n, t);
    var q := len / t;
    assert len == q * t;
    assert (q - k) * t == len - k * t;
    SmallMultiple(q - k, t);
  }

  /** One timestamp per emitted vision frame: the count is exactly `grid_t`, each the mean of its patch's ends. */
  method MergedFrameTimestamps(timestamps: seq<real>, temporalPatchSize: nat) returns (out: seq<real>)
    ensures |out| == GridT(|timestamps|, Max(temporalPatchSize, 1))
    ensures forall k :: 0 <= k < |out| ==>
      var tps := Max(temporalPatchSize, 1);
      timestamps != [] && out[k] == (PaddedAt(timestamps, k * tps) + PaddedAt(timestamps, k * tps + tps - 1)) / 2.0
  {
    var tps := Max(temporalPatchSize, 1);
    var ts := timestamps;
    if ts == [] {
      FirstMultiple(0, 0, tps);
      return [];
    }
    ghost var n := |timestamps|;
    while |ts| % tps != 0
      invariant n <= |ts| <= GridT(n, tps) * tps
      invariant forall k :: 0 <= k < |ts| ==> ts[k] == PaddedAt(timestamps, k)
      decreases GridT(n, tps) * tps - |ts|
    {
      if |ts| == GridT(n, tps) * tps {
        DivUnique(|ts|, GridT(n, tps), 0, tps);
      }
      ts := ts + [ts[|ts| - 1]];
    }
    FirstMultiple(n, |ts|, tps);
    var gridT := |ts| / tps;
    DivUnique(|ts|, GridT(n, tps), 0, tps);
    forall k | 0 <= k < gridT ensures 0 <= k * tps <= k * tps + tps - 1 < |ts| {
      MulMonotone(k + 1, gridT, tps);
      assert (k + 1) * tps == k * tps + tps;
    }
    out := seq(gridT, k requires 0 <= k * tps <= k * tps + tps - 1 < |ts| =>
      (ts[k * tps] + ts[k * tps + tps - 1]) / 2.0);
  }

  // ----- the prefill -----

  /** What the tower returns for one visual: its merged rows, its DeepStack taps and its grid. */
  datatype Encoded<T> = Encoded(rows: seq<T>, taps: seq<seq<T>>, grid: Grid)

  datatype Content<T> = Words | Image(e: Encoded<T>) | Video(e: Encoded<T>)

  datatype PrepareError =
    | InconsistentTaps
    | Expansion(error: Error)
    | Splicing(error: Error)
    | Positioning(mrope: MropeError)

  datatype Prefill<T> = Prefill(
    expandedIds: seq<int>,
    embeds: seq<T>,
    positions: Positions,
    visualPosMask: seq<bool>,
    deepstack: seq<seq<T>>)

  function ImageGrids<T>(contents: seq<Content<T>>): seq<Grid>
  {
    if contents == [] then []
    else
      var last := contents[|contents| - 1];
      ImageGrids(contents[..|contents| - 1]) + (if last.Image? then [last.e.grid] else [])
  }

  function VideoGrids<T>(contents: seq<Content<T>>): seq<Grid>
  {
    if contents == [] then []
    else
      var last := contents[|contents| - 1];
      VideoGrids(contents[..|contents| - 1]) + (if last.Video? then [last.e.grid] else [])
  }

  /** The visuals' rows in document order. */
  function Features<T>(contents: seq<Content<T>>): seq<seq<T>>
  {
    if contents == [] then []
    else
      var last := contents[|contents| - 1];
      Features(contents[..|contents| - 1]) + (if last.Words? then [] else [last.e.rows])
  }

  /** One tap's rows in document order. */
  function TapRows<T>(contents: seq<Content<T>>, tap: nat): seq<seq<T>>
  {
    if contents == [] then []
    else
      var last := contents[|contents| - 1];
      TapRows(contents[..|contents| - 1], tap)
      + (if last.Words? then [] else [if tap < |last.e.taps| then last.e.taps[tap] else []])
  }

  /** Every visual has `n` taps. */
  predicate TapsAgree<T>(contents: seq<Content<T>>, n: nat)
  {
    forall i :: 0 <= i < |contents| && !contents[i].Words? ==> |contents[i].e.taps| == n
  }

  predicate SomeVisual<T>(contents: seq<Content<T>>)
  {
    exists i :: 0 <= i < |contents| && !contents[i].Words?
  }

  /** The tower's promise for one visual: one row per merged block of a good grid, for the rows and for every tap. */
  predicate EncodedOk<T>(c: Config, e: Encoded<T>)
  {
    && GoodGrid(c, e.grid) && |e.rows| == GridCount(c, e.grid)
    && forall tap :: 0 <= tap < |e.taps| ==> |e.taps[tap]| == |e.rows|
  }

  predicate TowerOk<T>(c: Config, contents: seq<Content<T>>)
  {
    forall i :: 0 <= i < |contents| && !contents[i].Words? ==> EncodedOk(c, contents[i].e)
  }

  function FrameCounts(c: Config, grids: seq<Grid>): seq<nat>
  {
    if grids == [] then []
    else
      var g := grids[|grids| - 1];
      FrameCounts(c, grids[..|grids| - 1])
      + (if g.t <= 0 then [] else seq(g.t, _ => FrameCount(c, g)))
  }

  function FrameCount(c: Config, g: Grid): nat { GridCount(c, Grid(1, g.h, g.w)) }

  function ImageCounts<T>(contents: seq<Content<T>>): seq<nat>
  {
    if contents == [] then []
    else
      var last := contents[|contents| - 1];
      ImageCounts(contents[..|contents| - 1]) + (if last.Image? then [|last.e.rows|] else [])
  }

  /** What the walk over the conversation has gathered. */
  datatype Gathered<T> = Gathered(
    feats: seq<seq<T>>,
    imageCounts: seq<nat>,
    videoCounts: seq<nat>,
    imageGrids: seq<Grid>,
    videoGrids: seq<Grid>,
    byTap: seq<seq<seq<T>>>)

  ghost predicate HasGathered<T>(c: Config, contents: seq<Content<T>>, g: Gathered<T>)
  {
    && g.feats == Features(contents)
    && g.imageCounts == ImageCounts(contents)
    && g.imageGrids == ImageGrids(contents)
    && g.videoGrids == VideoGrids(contents)
    && g.videoCounts == FrameCounts(c, g.videoGrids)
  }

  ghost predicate HasTaps<T>(contents: seq<Content<T>>, byTap: seq<seq<seq<T>>>, n: nat)
  {
    && (byTap == [] ==> n == 0 || !SomeVisual(contents))
    && (byTap != [] ==> |byTap| == n)
    && forall tap :: 0 <= tap < |byTap| ==> byTap[tap] == TapRows(contents, tap)
  }

  method PushDeepstack<T>(byTap: seq<seq<seq<T>>>, taps: seq<seq<T>>)
      returns (r: Result<seq<seq<seq<T>>>, PrepareError>)
    ensures r.Ok? <==> byTap == [] || |taps| == |byTap|
    ensures r.Ok? ==> |r.value| == |taps| && forall tap :: 0 <= tap < |taps| ==>
      r.value[tap] == (if byTap == [] then [] else byTap[tap]) + [taps[tap]]
  {
    var out := byTap;
    if out == [] {
      out := seq(|taps|, _ => []);
    }
    if |taps| != |out| {
      return Err(InconsistentTaps);
    }
    ghost var before := out;
    for tap := 0 to |taps|
      invariant |out| == |taps|
      invariant forall i :: 0 <= i < |taps| ==> out[i] == if i < tap then before[i] + [taps[i]] else before[i]
    {
      out := out[tap := out[tap] + [taps[tap]]];
    }
    r := Ok(out);
  }

  lemma {:induction false} NoTapRows<T>(contents: seq<Content<T>>, tap: nat)
    requires !SomeVisual(contents)
    ensures TapRows(contents, tap) == []
  {
    if contents != [] {
      NoTapRows(contents[..|contents| - 1], tap);
    }
  }

  /** One more visual's taps. */
  lemma TapsStep<T>(contents: seq<Content<T>>, x: Content<T>, byTap: seq<seq<seq<T>>>, byTap': seq<seq<seq<T>>>, n: nat)
    requires !x.Words? && |x.e.taps| == n && HasTaps(contents, byTap, n)
    requires |byTap'| == n && forall tap :: 0 <= tap < n ==>
      byTap'[tap] == (if byTap == [] then [] else byTap[tap]) + [x.e.taps[tap]]
    ensures HasTaps(contents + [x], byTap', n)
  {
    var all := contents + [x];
    assert all[..|all| - 1] == contents && all[|all| - 1] == x;
    forall tap | 0 <= tap < n ensures byTap'[tap] == TapRows(all, tap) {
      if byTap == [] {
        NoTapRows(contents, tap);
      }
    }
  }

  /** Walk the conversation in document order. */
  method Gather<T>(c: Config, contents: seq<Content<T>>, ghost nTaps: nat)
      returns (r: Result<Gathered<T>, PrepareError>)
    requires c.mergeSize >= 1 && TowerOk(c, contents)
    ensures r.Ok? ==> HasGathered(c, contents, r.value)
    ensures TapsAgree(contents, nTaps) ==> r.Ok? && HasTaps(contents, r.value.byTap, nTaps)
  {
    hide HasTaps, TapRows, GridCount, GoodGrid, FrameCount, HasGathered;
    NothingGathered<T>(c);
    var g: Gathered<T> := Gathered([], [], [], [], [], []);
    NoTapsYet<T>(nTaps);
    for i := 0 to |contents|
      invariant HasGathered(c, contents[..i], g)
      invariant TapsAgree(contents, nTaps) ==> HasTaps(contents[..i], g.byTap, nTaps)
    {
      var x := contents[i];
      ghost var before := contents[..i];
      assert contents[..i + 1] == before + [x];
      assert (before + [x])[..i] == before;
      if x.Words? {
        WordsStep(before, x, g.byTap, nTaps);
        GatherStep(c, before, x, g, g);
      } else {
        var byTap := PushDeepstack(g.byTap, x.e.taps);
        if byTap.Err? {
          if TapsAgree(contents, nTaps) {
            TapsLength(before, g.byTap, nTaps);
          }
          return Err(byTap.error);
        }
        if TapsAgree(contents, nTaps) {
          TapsStep(before, x, g.byTap, byTap.value, nTaps);
        }
        ghost var g0 := g;
        if x.Image? {
          g := g.(imageCounts := g.imageCounts + [|x.e.rows|], imageGrids := g.imageGrids + [x.e.grid]);
        } else {
          var counts := PushFrames(c, g.videoCounts, x.e.grid);
          g := g.(videoCounts := counts, videoGrids := g.videoGrids + [x.e.grid]);
        }
        g := g.(feats := g.feats + [x.e.rows], byTap := byTap.value);
        GatherStep(c, before, x, g0, g);
      }
    }
    assert contents[..|contents|] == contents;
    r := Ok(g);
  }

  /** One count per frame. */
  method PushFrames(c: Config, before: seq<nat>, grid: Grid) returns (counts: seq<nat>)
    requires c.mergeSize >= 1 && GoodGrid(c, grid)
    ensures grid.t > 0
    ensures counts == before + seq(grid.t, _ => FrameCount(c, grid))
  {
    hide FrameCount;
    var frameSeqlen := TruncDiv(grid.h, c.mergeSize) * TruncDiv(grid.w, c.mergeSize);
    FrameSeqlen(c, grid);
    counts := before;
    for k := 0 to grid.t
      invariant counts == before + seq(k, _ => FrameCount(c, grid))
    {
      counts := counts + [frameSeqlen];
    }
  }

  lemma NothingGathered<T>(c: Config)
    ensures HasGathered<T>(c, [], Gathered([], [], [], [], [], []))
  {
  }

  /** What one more content adds. */
  lemma GatherStep<T>(c: Config, contents: seq<Content<T>>, x: Content<T>, g: Gathered<T>, g': Gathered<T>)
    requires HasGathered(c, contents, g) && (x.Words? || GoodGrid(c, x.e.grid))
    requires g'.feats == if x.Words? then g.feats else g.feats + [x.e.rows]
    requires g'.imageCounts == if x.Image? then g.imageCounts + [|x.e.rows|] else g.imageCounts
    requires g'.imageGrids == if x.Image? then g.imageGrids + [x.e.grid] else g.imageGrids
    requires g'.videoGrids == if x.Video? then g.videoGrids + [x.e.grid] else g.videoGrids
    requires GoodHasFrames(x)
    requires g'.videoCounts == if x.Video? then g.videoCounts + seq(x.e.grid.t, _ => FrameCount(c, x.e.grid))
        else g.videoCounts
    ensures HasGathered(c, contents + [x], g')
  {
    hide FrameCount, GoodGrid, FrameCounts;
    var all := contents + [x];
    assert all[..|all| - 1] == contents && all[|all| - 1] == x;
    if x.Video? {
      FrameCountsStep(c, g.videoGrids, x.e.grid);
    }
  }

  predicate GoodHasFrames<T>(x: Content<T>) { x.Video? ==> x.e.grid.t >= 0 }

  lemma TapsLength<T>(contents: seq<Content<T>>, byTap: seq<seq<seq<T>>>, n: nat)
    requires HasTaps(contents, byTap, n)
    ensures byTap == [] || |byTap| == n
  {
  }

  lemma NoTapsYet<T>(n: nat)
    ensures HasTaps<T>([], [], n)
  {
  }

  lemma FrameSeqlen(c: Config, g: Grid)
    requires c.mergeSize >= 1 && GoodGrid(c, g)
    ensures g.t > 0 && FrameCount(c, g) == TruncDiv(g.h, c.mergeSize) * TruncDiv(g.w, c.mergeSize)
  {
  }

  lemma WordsStep<T>(contents: seq<Content<T>>, x: Content<T>, byTap: seq<seq<seq<T>>>, n: nat)
    requires x.Words?
    ensures HasTaps(contents, byTap, n) ==> HasTaps(contents + [x], byTap, n)
  {
    var all := contents + [x];
    assert all[..|all| - 1] == contents;
    if SomeVisual(all) {
      var i :| 0 <= i < |all| && !all[i].Words?;
      assert !contents[i].Words?;
    }
  }

  lemma FrameCountsStep(c: Config, grids: seq<Grid>, g: Grid)
    requires GoodGrid(c, g)
    ensures g.t > 0
    ensures FrameCounts(c, grids + [g]) == FrameCounts(c, grids) + seq(g.t, _ => FrameCount(c, g))
  {
    assert (grids + [g])[..|grids|] == grids;
  }

  // ----- counts add up -----

  lemma {:induction false} SumAppend(a: seq<nat>, b: seq<nat>)
    ensures Sum(a + b) == Sum(a) + Sum(b)
  {
    if a == [] {
      assert a + b == b;
    } else {
      assert (a + b)[1..] == a[1..] + b;
      SumAppend(a[1..], b);
    }
  }

  lemma {:induction false} SumRepeat(n: nat, x: nat)
    ensures Sum(seq(n, _ => x)) == n * x
  {
    var s := seq(n, _ => x);
    if n > 0 {
      assert s[1..] == seq(n - 1, _ => x);
      SumRepeat(n - 1, x);
      assert n * x == x + (n - 1) * x;
    }
  }

  lemma {:induction false} GridCountsAppend(c: Config, a: seq<Grid>, b: seq<Grid>)
    ensures GridCounts(c, a + b) == GridCounts(c, a) + GridCounts(c, b)
  {
    if a == [] {
      assert a + b == b;
    } else {
      assert (a + b)[1..] == a[1..] + b;
      GridCountsAppend(c, a[1..], b);
    }
  }

  lemma {:induction false} GridCountsRepeat(c: Config, g: Grid, n: nat)
    ensures GridCounts(c, seq(n, _ => g)) == seq(n, _ => GridCount(c, g))
  {
    if n > 0 {
      assert seq(n, _ => g)[1..] == seq(n - 1, _ => g);
      GridCountsRepeat(c, g, n - 1);
    }
  }

  /** Counting per frame while walking the conversation is counting per frame grid. */
  lemma {:induction false} FrameCountsAreGridCounts(c: Config, grids: seq<Grid>)
    ensures FrameCounts(c, grids) == GridCounts(c, Frames(grids))
  {
    if grids != [] {
      var g, front := grids[|grids| - 1], grids[..|grids| - 1];
      FrameCountsAreGridCounts(c, front);
      if g.t > 0 {
        GridCountsAppend(c, Frames(front), seq(g.t, _ => Grid(1, g.h, g.w)));
        GridCountsRepeat(c, Grid(1, g.h, g.w), g.t);
      } else {
        assert Frames(front) + [] == Frames(front);
      }
    }
  }

  lemma TowerFront<T>(c: Config, contents: seq<Content<T>>)
    requires TowerOk(c, contents) && contents != []
    ensures TowerOk(c, contents[..|contents| - 1])
    ensures
      var last := contents[|contents| - 1];
      last.Words? || EncodedOk(c, last.e)
  {
  }

  lemma {:induction false} ImageCountsAreGridCounts<T>(c: Config, contents: seq<Content<T>>)
    requires TowerOk(c, contents)
    ensures ImageCounts(contents) == GridCounts(c, ImageGrids(contents))
  {
    hide TowerOk, GridCount, GoodGrid;
    if contents != [] {
      var last, front := contents[|contents| - 1], contents[..|contents| - 1];
      TowerFront(c, contents);
      ImageCountsAreGridCounts(c, front);
      if last.Image? {
        GridCountsAppend(c, ImageGrids(front), [last.e.grid]);
        assert GridCounts(c, [last.e.grid]) == [GridCount(c, last.e.grid)];
      } else {
        assert ImageCounts(contents) == ImageCounts(front) && ImageGrids(contents) == ImageGrids(front);
      }
    }
  }

  lemma {:induction false} GridsAreGood<T>(c: Config, contents: seq<Content<T>>)
    requires TowerOk(c, contents)
    ensures GoodGrids(c, ImageGrids(contents)) && GoodGrids(c, VideoGrids(contents))
  {
    hide TowerOk, GridCount, GoodGrid;
    if contents != [] {
      TowerFront(c, contents);
      GridsAreGood(c, contents[..|contents| - 1]);
    }
  }

  lemma {:induction false} GoodFrames(c: Config, grids: seq<Grid>)
    requires GoodGrids(c, grids)
    ensures GoodGrids(c, Frames(grids))
  {
    if grids != [] {
      GoodFrames(c, grids[..|grids| - 1]);
    }
  }

  /** As many feature rows as placeholders after expansion. */
  lemma {:induction false} RowsAddUp<T>(c: Config, contents: seq<Content<T>>)
    requires TowerOk(c, contents)
    ensures |Flatten(Features(contents))| == Sum(ImageCounts(contents)) + Sum(FrameCounts(c, VideoGrids(contents)))
  {
    hide TowerOk, GridCount, GoodGrid, FrameCount, Flatten, Sum;
    if contents == [] {
      assert |Flatten<T>([])| == 0 && Sum([]) == 0 by {
        NothingAdds<T>();
      }
    } else {
      var last, front := contents[|contents| - 1], contents[..|contents| - 1];
      TowerFront(c, contents);
      RowsAddUp(c, front);
      match last
      case Words =>
        assert Features(contents) == Features(front);
        assert ImageCounts(contents) == ImageCounts(front) && VideoGrids(contents) == VideoGrids(front);
      case Image(e) =>
        FlattenSnoc(Features(front), e.rows);
        SumAppend(ImageCounts(front), [|e.rows|]);
        SumOne(|e.rows|);
        assert VideoGrids(contents) == VideoGrids(front);
      case Video(e) =>
        FlattenSnoc(Features(front), e.rows);
        FrameCountsStep(c, VideoGrids(front), e.grid);
        SumAppend(FrameCounts(c, VideoGrids(front)), seq(e.grid.t, _ => FrameCount(c, e.grid)));
        SumRepeat(e.grid.t, FrameCount(c, e.grid));
        CountByFrames(c, e.grid);
        assert ImageCounts(contents) == ImageCounts(front);
    }
  }

  lemma NothingAdds<T>()
    ensures |Flatten<T>([])| == 0 && Sum([]) == 0
  {
  }

  lemma SumOne(n: nat)
    ensures Sum([n]) == n
  {
    assert [n][1..] == [];
  }

  /** A good grid's rows are its frames' rows. */
  lemma CountByFrames(c: Config, g: Grid)
    requires GoodGrid(c, g)
    ensures GridCount(c, g) == g.t * FrameCount(c, g)
  {
    var gh, gw := TruncDiv(g.h, Merge(c)), TruncDiv(g.w, Merge(c));
    assert g.t * gh * gw == g.t * (1 * gh * gw);
  }

  lemma {:induction false} RankIsCount(ids: seq<int>, a: int, b: int, p: nat)
    requires a != b && p <= |ids|
    ensures Rank(MaskOf(ids, [a, b]), p) == Count(ids[..p], a) + Count(ids[..p], b)
  {
    if p > 0 {
      RankIsCount(ids, a, b, p - 1);
      assert ids[..p] == ids[..p - 1] + [ids[p - 1]];
      CountAppend(ids[..p - 1], [ids[p - 1]], a);
      CountAppend(ids[..p - 1], [ids[p - 1]], b);
      assert MaskOf(ids, [a, b])[p - 1] == (ids[p - 1] in [a, b]);
    }
  }

  /** Every tap has as many rows as there are feature rows. */
  lemma {:induction false} TapsAddUp<T>(c: Config, contents: seq<Content<T>>, n: nat, tap: nat)
    requires TowerOk(c, contents) && TapsAgree(contents, n) && tap < n
    ensures |Flatten(TapRows(contents, tap))| == |Flatten(Features(contents))|
  {
    hide GridCount, GoodGrid, Flatten;
    if contents == [] {
      assert TapRows(contents, tap) == [] && Features(contents) == [];
      NothingAdds<T>();
    } else {
      var last, front := contents[|contents| - 1], contents[..|contents| - 1];
      TowerFront(c, contents);
      TapsAddUp(c, front, n, tap);
      if last.Words? {
        assert TapRows(contents, tap) == TapRows(front, tap) && Features(contents) == Features(front);
      } else {
        FlattenSnoc(TapRows(front, tap), last.e.taps[tap]);
        FlattenSnoc(Features(front), last.e.rows);
      }
    }
  }

  // ----- the whole assembly -----

  /** A prompt that fits its conversation: matching placeholder counts, equal placeholders never adjacent. */
  predicate Fits<T>(c: Config, prompt: seq<int>, contents: seq<Content<T>>)
  {
    && c.imageToken != c.videoToken
    && Separated(c, prompt)
    && Count(prompt, c.imageToken) == |ImageGrids(contents)|
    && Count(prompt, c.videoToken) == |Frames(VideoGrids(contents))|
  }

  function Embeds<T>(embed: int -> T, ids: seq<int>): (out: seq<T>)
    ensures |out| == |ids| && forall p :: 0 <= p < |ids| ==> out[p] == embed(ids[p])
  {
    seq(|ids|, p requires 0 <= p < |ids| => embed(ids[p]))
  }

  /** Ids, mask, spliced rows and positions all speak of the same expanded stream, whose blocks are the prompt's. */
  ghost predicate Assembled<T>(c: Config, embed: int -> T, prompt: seq<int>, contents: seq<Content<T>>, out: Prefill<T>)
    requires Fits(c, prompt, contents)
  {
    var blocks := PromptBlocks(c, prompt, ImageGrids(contents), Frames(VideoGrids(contents)));
    var mask := MaskOf(out.expandedIds, [c.imageToken, c.videoToken]);
    && ValidBlocks(blocks)
    && out.expandedIds == Stream(blocks)
    && out.visualPosMask == mask
    && RowsAre(out.positions.t, out.positions.h, out.positions.w, Layout(blocks, 0))
    && out.positions.delta == Cursor(blocks, 0) - |out.expandedIds| <= 0
    && IsSpliced(Embeds(embed, out.expandedIds), mask, Flatten(Features(contents)), out.embeds)
  }

  lemma SplicedSizes<T>(embeds: seq<T>, mask: seq<bool>, feats: seq<T>, out: seq<T>)
    requires |mask| == |embeds| && IsSpliced(embeds, mask, feats, out)
    ensures |out| == |mask| && Rank(mask, |mask|) == |feats|
  {
  }

  /** Every tap has one row per visual position, and the hidden states one per position. */
  predicate TapsFit<T>(out: Prefill<T>)
  {
    && |out.visualPosMask| == |out.embeds|
    && forall tap :: 0 <= tap < |out.deepstack| ==>
      |out.deepstack[tap]| == Rank(out.visualPosMask, |out.visualPosMask|)
  }

  /** The fused decoder never refuses such a prefill, however many layers it has. */
  lemma FusionAccepts<T>(out: Prefill<T>, numLayers: nat)
    requires TapsFit(out)
    ensures !TapMismatch(out.embeds, out.visualPosMask, out.deepstack, numLayers)
  {
    hide Rank;
    var mask, taps := out.visualPosMask, out.deepstack;
    assert forall i :: 0 <= i < |taps| ==> |taps[i]| == Rank(mask, |mask|);
  }

  lemma FitsIsAccepted<T>(c: Config, prompt: seq<int>, contents: seq<Content<T>>)
    requires TowerOk(c, contents) && Fits(c, prompt, contents)
    ensures
      var images, frames := ImageGrids(contents), Frames(VideoGrids(contents));
      var blocks := PromptBlocks(c, prompt, images, frames);
      var ic, vc := ImageCounts(contents), FrameCounts(c, VideoGrids(contents));
      && |ic| == |images| == Count(prompt, c.imageToken) && |vc| == |frames|
      && Count(Expanded(prompt, c.imageToken, ic), c.videoToken) == |vc|
      && var ids := Expanded(Expanded(prompt, c.imageToken, ic), c.videoToken, vc);
      && ValidBlocks(blocks) && ids == Stream(blocks)
      && Parse(c, ids, images, frames) == Ok(blocks)
      && Rank(MaskOf(ids, [c.imageToken, c.videoToken]), |ids|) == |Flatten(Features(contents))|
  {
    var images, frames := ImageGrids(contents), Frames(VideoGrids(contents));
    var ic, vc := ImageCounts(contents), FrameCounts(c, VideoGrids(contents));
    ImageCountsAreGridCounts(c, contents);
    GridsAreGood(c, contents);
    FrameCountsAreGridCounts(c, VideoGrids(contents));
    GoodFrames(c, VideoGrids(contents));
    ExpandedPromptIsAccepted(c, prompt, images, frames);
    ExpansionSpellsBlocks(c, prompt, images, frames);
    var once := Expanded(prompt, c.imageToken, ic);
    var ids := Expanded(once, c.videoToken, vc);
    RankIsCount(ids, c.imageToken, c.videoToken, |ids|);
    assert ids[..|ids|] == ids;
    ExpandedCounts(prompt, c.imageToken, ic, c.imageToken);
    ExpandedCounts(once, c.videoToken, vc, c.imageToken);
    ExpandedCounts(once, c.videoToken, vc, c.videoToken);
    RowsAddUp(c, contents);
  }

  /** Encode, expand, splice and lay out. A fitting prompt is never refused, and everything returned lines up. */
  method PrepareMultimodal<T>(c: Config, embed: int -> T, prompt: seq<int>, contents: seq<Content<T>>, ghost nTaps: nat)
    returns (r: Result<Prefill<T>, PrepareError>)
    requires c.mergeSize >= 1 && TowerOk(c, contents) && SomeVisual(contents)
    ensures Fits(c, prompt, contents) && TapsAgree(contents, nTaps) ==>
      && r.Ok?
      && Assembled(c, embed, prompt, contents, r.value)
      && |r.value.deepstack| == nTaps
      && (forall tap :: 0 <= tap < nTaps ==> r.value.deepstack[tap] == Flatten(TapRows(contents, tap)))
      && TapsFit(r.value)
    ensures Count(prompt, c.imageToken) != |ImageGrids(contents)| ==> r.Err?
  {
    hide HasTaps, Fits, TowerOk, TapsAgree, IsSpliced, RowsAre, MaskOf, PromptBlocks, Parse, FrameCounts, Frames,
      ImageCounts;
    hide Expanded, Count, Rank, TapRows, Layout, Features, ImageGrids, VideoGrids, Stream, Cursor;
    var gathered := Gather(c, contents, nTaps);
    if gathered.Err? {
      return Err(gathered.error);
    }
    var g := gathered.value;
    if Fits(c, prompt, contents) {
      FitsIsAccepted(c, prompt, contents);
    }
    CountsLengths(contents);
    var once := ExpandVisionPlaceholders(prompt, c.imageToken, g.imageCounts);
    if once.Err? {
      return Err(Expansion(once.error));
    }
    var expanded := ExpandVisionPlaceholders(once.value, c.videoToken, g.videoCounts);
    if expanded.Err? {
      return Err(Expansion(expanded.error));
    }
    var ids := expanded.value;
    var mask := MaskOf(ids, [c.imageToken, c.videoToken]);
    var deepstack := seq(|g.byTap|, tap requires 0 <= tap < |g.byTap| => Flatten(g.byTap[tap]));
    var spliced := SpliceVisionFeatures(Embeds(embed, ids), ids, Flatten(g.feats), [c.imageToken, c.videoToken]);
    if spliced.Err? {
      return Err(Splicing(spliced.error));
    }
    var positions := MropePositionsMm(c, ids, g.imageGrids, g.videoGrids);
    if positions.Err? {
      if Fits(c, prompt, contents) {
        VideosAreGood(c, contents);
      }
      return Err(Positioning(positions.error));
    }
    r := Ok(Prefill(ids, spliced.value, positions.value, mask, deepstack));
    if Fits(c, prompt, contents) && TapsAgree(contents, nTaps) {
      VideosAreGood(c, contents);
      TapsComplete(contents, g.byTap, nTaps);
      SplicedSizes(Embeds(embed, ids), mask, Flatten(g.feats), spliced.value);
      forall tap | 0 <= tap < nTaps ensures |deepstack[tap]| == Rank(mask, |mask|) {
        TapsAddUp(c, contents, nTaps, tap);
      }
    }
  }

  lemma VideosAreGood<T>(c: Config, contents: seq<Content<T>>)
    requires TowerOk(c, contents)
    ensures !exists i :: 0 <= i < |VideoGrids(contents)| && VideoGrids(contents)[i].t <= 0
  {
    GridsAreGood(c, contents);
  }

  lemma TapsComplete<T>(contents: seq<Content<T>>, byTap: seq<seq<seq<T>>>, n: nat)
    requires HasTaps(contents, byTap, n) && SomeVisual(contents)
    ensures |byTap| == n && forall tap :: 0 <= tap < n ==> byTap[tap] == TapRows(contents, tap)
  {
  }

  lemma {:induction false} CountsLengths<T>(contents: seq<Content<T>>)
    ensures |ImageCounts(contents)| == |ImageGrids(contents)|
  {
    if contents != [] {
      CountsLengths(contents[..|contents| - 1]);
    }
  }

  // ----- document order -----

  /** The rows of each placeholder run, in document order: an image's rows, or a video's frame by frame. */
  function Units<T>(c: Config, contents: seq<Content<T>>): seq<seq<T>>
  {
    if contents == [] then []
    else
      var last := contents[|contents| - 1];
      Units(c, contents[..|contents| - 1])
      + (match last
         case Words => []
         case Image(e) => [e.rows]
         case Video(e) => Slices(e.rows, FrameCount(c, e.grid), e.grid.t))
  }

  /** The first `n` slices of `size` rows. */
  function Slices<T>(rows: seq<T>, size: nat, n: int): (out: seq<seq<T>>)
    ensures |out| == Max(n, 0)
    decreases n
  {
    if n <= 0 then []
    else [if size <= |rows| then rows[..size] else rows]
         + Slices(if size <= |rows| then rows[size..] else [], size, n - 1)
  }

  lemma {:induction false} SlicesFlatten<T>(rows: seq<T>, size: nat, n: nat)
    requires |rows| == n * size
    ensures Flatten(Slices(rows, size, n)) == rows
    ensures forall f :: 0 <= f < n ==> |Slices(rows, size, n)[f]| == size
    decreases n
  {
    if n > 0 {
      assert n * size == size + (n - 1) * size;
      SlicesFlatten(rows[size..], size, n - 1);
      assert rows == rows[..size] + rows[size..];
    }
  }

  lemma {:induction false} UnitsAreFeatures<T>(c: Config, contents: seq<Content<T>>)
    requires TowerOk(c, contents)
    ensures Flatten(Units(c, contents)) == Flatten(Features(contents))
  {
    hide TowerOk, GridCount, GoodGrid, FrameCount, Flatten, Slices;
    if contents != [] {
      var last, front := contents[|contents| - 1], contents[..|contents| - 1];
      TowerFront(c, contents);
      UnitsAreFeatures(c, front);
      match last
      case Words =>
        assert Units(c, contents) == Units(c, front) && Features(contents) == Features(front);
      case Image(e) =>
        FlattenSnoc(Units(c, front), e.rows);
        FlattenSnoc(Features(front), e.rows);
      case Video(e) =>
        GoodGridHasFrames(c, e.grid);
        CountByFrames(c, e.grid);
        SlicesFlatten(e.rows, FrameCount(c, e.grid), e.grid.t);
        FlattenAppend(Units(c, front), Slices(e.rows, FrameCount(c, e.grid), e.grid.t));
        FlattenSnoc(Features(front), e.rows);
    }
  }

  lemma GoodGridHasFrames(c: Config, g: Grid)
    requires GoodGrid(c, g)
    ensures g.t > 0
  {
  }

  /** Each vision block in turn has as many tokens as the next unit has rows. */
  predicate UnitsFit<T>(blocks: seq<Block>, units: seq<seq<T>>)
    requires ValidBlocks(blocks)
  {
    if blocks == [] then units == []
    else if blocks[0].Text? then UnitsFit(blocks[1..], units)
    else units != [] && |units[0]| == Size(blocks[0]) && UnitsFit(blocks[1..], units[1..])
  }

  /** The rows as they should be: a text block's embedding, the `j`-th vision block's own unit. */
  function BlockRows<T>(embed: int -> T, blocks: seq<Block>, units: seq<seq<T>>): seq<T>
    requires ValidBlocks(blocks) && UnitsFit(blocks, units)
  {
    if blocks == [] then []
    else if blocks[0].Text? then [embed(blocks[0].id)] + BlockRows(embed, blocks[1..], units)
    else units[0] + BlockRows(embed, blocks[1..], units[1..])
  }

  /** Placeholders stand for vision blocks and nothing else. */
  predicate TokensMatch(c: Config, blocks: seq<Block>)
  {
    forall i :: 0 <= i < |blocks| ==>
      if blocks[i].Text? then !IsVision(c, blocks[i].id) else IsVision(c, blocks[i].token)
  }

  lemma {:induction false} RankAppend(a: seq<bool>, b: seq<bool>, p: nat)
    requires p <= |a| + |b|
    ensures Rank(a + b, p) == if p <= |a| then Rank(a, p) else Rank(a, |a|) + Rank(b, p - |a|)
  {
    if p > 0 {
      RankAppend(a, b, p - 1);
    }
  }

  lemma SplicedAppend<T>(e1: seq<T>, m1: seq<bool>, f1: seq<T>, o1: seq<T>, e2: seq<T>, m2: seq<bool>, f2: seq<T>,
      o2: seq<T>)
    requires |m1| == |e1| && |m2| == |e2| && IsSpliced(e1, m1, f1, o1) && IsSpliced(e2, m2, f2, o2)
    ensures IsSpliced(e1 + e2, m1 + m2, f1 + f2, o1 + o2)
  {
    RankAppend(m1, m2, |m1| + |m2|);
    forall p | 0 <= p < |m1| + |m2|
      ensures (o1 + o2)[p] == if (m1 + m2)[p] then FeatureAt(m1 + m2, f1 + f2, p) else (e1 + e2)[p]
    {
      RankAppend(m1, m2, p);
      if p < |m1| {
        RankBelowAll(m1, p);
      } else {
        RankBelowAll(m2, p - |m1|);
      }
    }
  }

  lemma BlockSpliced<T>(c: Config, embed: int -> T, b: Block, unit: seq<T>)
    requires ValidBlock(b) && TokensMatch(c, [b]) && (b.Vision? ==> |unit| == Size(b))
    ensures
      var mask := MaskOf(Tokens(b), [c.imageToken, c.videoToken]);
      IsSpliced(Embeds(embed, Tokens(b)), mask, if b.Text? then [] else unit, if b.Text? then [embed(b.id)] else unit)
  {
    assert TokensMatch(c, [b]) ==> [b][0] == b;
    var mask := MaskOf(Tokens(b), [c.imageToken, c.videoToken]);
    forall p | 0 <= p <= |mask| ensures Rank(mask, p) == if b.Text? then 0 else p {
      RankBelow(mask, 0, p);
    }
  }

  /** The splice gives every run exactly its own rows, in order, and every text token its embedding. */
  lemma {:induction false} SpliceByBlocks<T>(c: Config, embed: int -> T, blocks: seq<Block>, units: seq<seq<T>>)
    requires ValidBlocks(blocks) && TokensMatch(c, blocks) && UnitsFit(blocks, units)
    ensures
      var ids := Stream(blocks);
      IsSpliced(Embeds(embed, ids), MaskOf(ids, [c.imageToken, c.videoToken]), Flatten(units),
                BlockRows(embed, blocks, units))
    decreases |blocks|
  {
    hide IsSpliced, Tokens;
    var tokens := [c.imageToken, c.videoToken];
    if blocks == [] {
      NothingSpliced<T>();
      assert Embeds(embed, []) == [] && MaskOf([], tokens) == [];
    } else {
      var b, rest := blocks[0], blocks[1..];
      assert TokensMatch(c, rest) && TokensMatch(c, [b]);
      if b.Text? {
        SpliceByBlocks(c, embed, rest, units);
        BlockSpliced(c, embed, b, []);
        SpliceStep(c, embed, b, Stream(rest), [], [embed(b.id)], Flatten(units), BlockRows(embed, rest, units));
        assert [] + Flatten(units) == Flatten(units);
      } else {
        SpliceByBlocks(c, embed, rest, units[1..]);
        BlockSpliced(c, embed, b, units[0]);
        SpliceStep(c, embed, b, Stream(rest), units[0], units[0], Flatten(units[1..]),
          BlockRows(embed, rest, units[1..]));
      }
    }
  }

  lemma NothingSpliced<T>()
    ensures IsSpliced<T>([], [], [], [])
  {
  }

  lemma SpliceStep<T>(c: Config, embed: int -> T, b: Block, there: seq<int>, unit: seq<T>, rows: seq<T>,
                      feats: seq<T>, rest: seq<T>)
    requires ValidBlock(b)
    requires IsSpliced(Embeds(embed, Tokens(b)), MaskOf(Tokens(b), [c.imageToken, c.videoToken]), unit, rows)
    requires IsSpliced(Embeds(embed, there), MaskOf(there, [c.imageToken, c.videoToken]), feats, rest)
    ensures
      var ids := Tokens(b) + there;
      IsSpliced(Embeds(embed, ids), MaskOf(ids, [c.imageToken, c.videoToken]), unit + feats, rows + rest)
  {
    hide IsSpliced, Tokens;
    var here, tokens := Tokens(b), [c.imageToken, c.videoToken];
    SplicedAppend(Embeds(embed, here), MaskOf(here, tokens), unit, rows,
                  Embeds(embed, there), MaskOf(there, tokens), feats, rest);
    assert Embeds(embed, here + there) == Embeds(embed, here) + Embeds(embed, there);
    assert MaskOf(here + there, tokens) == MaskOf(here, tokens) + MaskOf(there, tokens);
  }

  lemma {:induction false} PromptTokensMatch(c: Config, prompt: seq<int>, images: seq<Grid>, frames: seq<Grid>)
    requires c.imageToken != c.videoToken
    requires Count(prompt, c.imageToken) == |images| && Count(prompt, c.videoToken) == |frames|
    ensures TokensMatch(c, PromptBlocks(c, prompt, images, frames))
  {
    if prompt != [] {
      if prompt[0] == c.imageToken {
        PromptTokensMatch(c, prompt[1..], images[1..], frames);
      } else if prompt[0] == c.videoToken {
        PromptTokensMatch(c, prompt[1..], images, frames[1..]);
      } else {
        PromptTokensMatch(c, prompt[1..], images, frames);
      }
    }
  }

  /** An assembled prefill has, run by run, the rows of the unit that fits there, and only one sequence does. */
  lemma AssembledByUnits<T>(c: Config, embed: int -> T, prompt: seq<int>, contents: seq<Content<T>>, out: Prefill<T>)
    requires TowerOk(c, contents) && Fits(c, prompt, contents) && Assembled(c, embed, prompt, contents, out)
    requires UnitsFit(PromptBlocks(c, prompt, ImageGrids(contents), Frames(VideoGrids(contents))), Units(c, contents))
    ensures out.embeds
         == BlockRows(embed, PromptBlocks(c, prompt, ImageGrids(contents), Frames(VideoGrids(contents))),
           Units(c, contents))
  {
    var images, frames := ImageGrids(contents), Frames(VideoGrids(contents));
    var blocks := PromptBlocks(c, prompt, images, frames);
    PromptTokensMatch(c, prompt, images, frames);
    SpliceByBlocks(c, embed, blocks, Units(c, contents));
    UnitsAreFeatures(c, contents);
    SpliceIsUnique(Embeds(embed, out.expandedIds), out.visualPosMask, Flatten(Features(contents)),
                   out.embeds, BlockRows(embed, blocks, Units(c, contents)));
  }

  /** One placeholder run the conversation calls for: its token, its grid and its rows. */
  datatype Run<T> = Run(token: int, grid: Grid, unit: seq<T>)

  /** A video's runs, one per frame. */
  function VideoRuns<T>(c: Config, e: Encoded<T>): (runs: seq<Run<T>>)
    ensures |runs| == Max(e.grid.t, 0)
  {
    var units := Slices(e.rows, FrameCount(c, e.grid), e.grid.t);
    seq(|units|, f requires 0 <= f < |units| => Run(c.videoToken, Grid(1, e.grid.h, e.grid.w), units[f]))
  }

  /** The runs in document order. */
  function Runs<T>(c: Config, contents: seq<Content<T>>): seq<Run<T>>
  {
    if contents == [] then []
    else
      var last := contents[|contents| - 1];
      Runs(c, contents[..|contents| - 1])
      + (match last
         case Words => []
         case Image(e) => [Run(c.imageToken, e.grid, e.rows)]
         case Video(e) => VideoRuns(c, e))
  }

  function UnitsOf<T>(runs: seq<Run<T>>): (out: seq<seq<T>>)
    ensures |out| == |runs| && forall i :: 0 <= i < |runs| ==> out[i] == runs[i].unit
  {
    seq(|runs|, i requires 0 <= i < |runs| => runs[i].unit)
  }

  function TokensOf<T>(runs: seq<Run<T>>): (out: seq<int>)
    ensures |out| == |runs| && forall i :: 0 <= i < |runs| ==> out[i] == runs[i].token
  {
    seq(|runs|, i requires 0 <= i < |runs| => runs[i].token)
  }

  /** The grids of the runs with one token. */
  function GridsOf<T>(runs: seq<Run<T>>, token: int): seq<Grid>
  {
    if runs == [] then []
    else (if runs[0].token == token then [runs[0].grid] else []) + GridsOf(runs[1..], token)
  }

  /** The prompt's placeholders, in order. */
  function Placeholders(c: Config, prompt: seq<int>): seq<int>
  {
    if prompt == [] then []
    else (if IsVision(c, prompt[0]) then [prompt[0]] else []) + Placeholders(c, prompt[1..])
  }

  /** Each run's rows fill its grid. */
  predicate RunsOk<T>(c: Config, runs: seq<Run<T>>)
  {
    forall i :: 0 <= i < |runs| ==> GoodGrid(c, runs[i].grid) && |runs[i].unit| == GridCount(c, runs[i].grid)
  }

  lemma {:induction false} GridsOfAppend<T>(a: seq<Run<T>>, b: seq<Run<T>>, token: int)
    ensures GridsOf(a + b, token) == GridsOf(a, token) + GridsOf(b, token)
  {
    if a == [] {
      assert a + b == b;
    } else {
      var run, rest := a[0], a[1..];
      GridsOfAppend(rest, b, token);
      hide GridsOf;
      GridsHead(run, rest, token);
      GridsHead(run, rest + b, token);
      assert a == [run] + rest;
      Assoc([run], rest, b);
      Assoc([run.grid], GridsOf(rest, token), GridsOf(b, token));
    }
  }

  lemma {:induction false} SameGrids<T>(runs: seq<Run<T>>, token: int, g: Grid, other: int)
    requires forall i :: 0 <= i < |runs| ==> runs[i].token == token && runs[i].grid == g
    ensures GridsOf(runs, token) == seq(|runs|, _ => g)
    ensures other != token ==> GridsOf(runs, other) == []
  {
    if runs != [] {
      SameGrids(runs[1..], token, g, other);
      assert seq(|runs|, _ => g) == [g] + seq(|runs| - 1, _ => g);
    }
  }

  /** A video's runs are its frames, each with a frame's worth of rows. */
  lemma VideoRunsOk<T>(c: Config, e: Encoded<T>)
    requires EncodedOk(c, e)
    ensures e.grid.t > 0 && RunsOk(c, VideoRuns(c, e))
    ensures UnitsOf(VideoRuns(c, e)) == Slices(e.rows, FrameCount(c, e.grid), e.grid.t)
    ensures GridsOf(VideoRuns(c, e), c.videoToken) == seq(e.grid.t, _ => Grid(1, e.grid.h, e.grid.w))
    ensures c.imageToken != c.videoToken ==> GridsOf(VideoRuns(c, e), c.imageToken) == []
  {
    hide Slices, GridCount;
    GoodGridHasFrames(c, e.grid);
    CountByFrames(c, e.grid);
    SlicesFlatten(e.rows, FrameCount(c, e.grid), e.grid.t);
    SameGrids(VideoRuns(c, e), c.videoToken, Grid(1, e.grid.h, e.grid.w), c.imageToken);
  }

  /** The runs are the images, the frames and the units of the conversation. */
  lemma {:induction false} RunsAreContents<T>(c: Config, contents: seq<Content<T>>)
    requires TowerOk(c, contents) && c.imageToken != c.videoToken
    ensures RunsOk(c, Runs(c, contents)) && UnitsOf(Runs(c, contents)) == Units(c, contents)
    ensures GridsOf(Runs(c, contents), c.imageToken) == ImageGrids(contents)
    ensures GridsOf(Runs(c, contents), c.videoToken) == Frames(VideoGrids(contents))
  {
    hide GridCount, GoodGrid, FrameCount, Slices, TowerOk, EncodedOk, VideoRuns, GridsOf, UnitsOf, RunsOk;
    if contents == [] {
      NoRuns<T>(c);
    } else {
      var last, front := contents[|contents| - 1], contents[..|contents| - 1];
      TowerFront(c, contents);
      RunsAreContents(c, front);
      match last
      case Words =>
        assert Runs(c, contents) == Runs(c, front) && Units(c, contents) == Units(c, front);
        assert ImageGrids(contents) == ImageGrids(front) && VideoGrids(contents) == VideoGrids(front);
      case Image(e) =>
        ImageRun(c, e);
        MoreRuns(c, Runs(c, front), [Run(c.imageToken, e.grid, e.rows)]);
        assert VideoGrids(contents) == VideoGrids(front);
      case Video(e) =>
        VideoRunsOk(c, e);
        MoreRuns(c, Runs(c, front), VideoRuns(c, e));
        assert ImageGrids(contents) == ImageGrids(front);
        FramesSnoc(VideoGrids(front), e.grid);
    }
  }

  lemma NoRuns<T>(c: Config)
    ensures RunsOk<T>(c, []) && UnitsOf<T>([]) == [] && GridsOf<T>([], c.imageToken) == []
    ensures GridsOf<T>([], c.videoToken) == []
  {
  }

  lemma FramesSnoc(grids: seq<Grid>, g: Grid)
    requires g.t > 0
    ensures Frames(grids + [g]) == Frames(grids) + seq(g.t, _ => Grid(1, g.h, g.w))
  {
    assert (grids + [g])[..|grids|] == grids;
  }

  lemma ImageRun<T>(c: Config, e: Encoded<T>)
    requires EncodedOk(c, e) && c.imageToken != c.videoToken
    ensures var runs := [Run(c.imageToken, e.grid, e.rows)];
      && RunsOk(c, runs) && UnitsOf(runs) == [e.rows]
      && GridsOf(runs, c.imageToken) == [e.grid] && GridsOf(runs, c.videoToken) == []
  {
    hide GridCount, GoodGrid;
    var runs := [Run(c.imageToken, e.grid, e.rows)];
    assert runs[1..] == [];
  }

  lemma MoreRuns<T>(c: Config, a: seq<Run<T>>, b: seq<Run<T>>)
    requires RunsOk(c, a) && RunsOk(c, b)
    ensures RunsOk(c, a + b) && UnitsOf(a + b) == UnitsOf(a) + UnitsOf(b)
    ensures GridsOf(a + b, c.imageToken) == GridsOf(a, c.imageToken) + GridsOf(b, c.imageToken)
    ensures GridsOf(a + b, c.videoToken) == GridsOf(a, c.videoToken) + GridsOf(b, c.videoToken)
  {
    hide GridCount, GoodGrid;
    GridsOfAppend(a, b, c.imageToken);
    GridsOfAppend(a, b, c.videoToken);
  }

  /** A prompt whose placeholders come in the order of the runs gives each run its own grid and rows. */
  lemma {:induction false} PromptFollowsRuns<T>(c: Config, prompt: seq<int>, runs: seq<Run<T>>)
    requires c.imageToken != c.videoToken && RunsOk(c, runs) && Placeholders(c, prompt) == TokensOf(runs)
    ensures Count(prompt, c.imageToken) == |GridsOf(runs, c.imageToken)|
    ensures Count(prompt, c.videoToken) == |GridsOf(runs, c.videoToken)|
    ensures
      var blocks := PromptBlocks(c, prompt, GridsOf(runs, c.imageToken), GridsOf(runs, c.videoToken));
      ValidBlocks(blocks) && UnitsFit(blocks, UnitsOf(runs))
  {
    hide GridCount, GoodGrid;
    if prompt != [] {
      var rest := prompt[1..];
      assert prompt == [prompt[0]] + rest;
      if IsVision(c, prompt[0]) {
        assert runs[0].token == TokensOf(runs)[0] == prompt[0];
        assert TokensOf(runs[1..]) == TokensOf(runs)[1..] == Placeholders(c, rest);
        PromptFollowsRuns(c, rest, runs[1..]);
        assert runs == [runs[0]] + runs[1..];
        VisionStep(c, runs[0], rest, runs[1..]);
      } else {
        assert Placeholders(c, prompt) == Placeholders(c, rest);
        PromptFollowsRuns(c, rest, runs);
        TextStep(c, prompt[0], rest, GridsOf(runs, c.imageToken), GridsOf(runs, c.videoToken), UnitsOf(runs));
      }
    }
  }

  lemma TextStep<T>(c: Config, id: int, rest: seq<int>, images: seq<Grid>, frames: seq<Grid>, units: seq<seq<T>>)
    requires c.imageToken != c.videoToken && !IsVision(c, id)
    requires Count(rest, c.imageToken) == |images| && Count(rest, c.videoToken) == |frames|
    requires var blocks := PromptBlocks(c, rest, images, frames); ValidBlocks(blocks) && UnitsFit(blocks, units)
    ensures Count([id] + rest, c.imageToken) == |images| && Count([id] + rest, c.videoToken) == |frames|
    ensures var blocks := PromptBlocks(c, [id] + rest, images, frames); ValidBlocks(blocks) && UnitsFit(blocks, units)
  {
    assert ([id] + rest)[1..] == rest;
    var blocks := PromptBlocks(c, rest, images, frames);
    PrependBlock(Text(id), blocks);
    assert ([Text(id)] + blocks)[1..] == blocks;
  }

  lemma VisionStep<T>(c: Config, run: Run<T>, rest: seq<int>, runs: seq<Run<T>>)
    requires c.imageToken != c.videoToken && IsVision(c, run.token)
    requires GoodGrid(c, run.grid) && |run.unit| == GridCount(c, run.grid)
    requires Count(rest, c.imageToken) == |GridsOf(runs, c.imageToken)|
    requires Count(rest, c.videoToken) == |GridsOf(runs, c.videoToken)|
    requires var blocks := PromptBlocks(c, rest, GridsOf(runs, c.imageToken), GridsOf(runs, c.videoToken));
      ValidBlocks(blocks) && UnitsFit(blocks, UnitsOf(runs))
    ensures Count([run.token] + rest, c.imageToken) == |GridsOf([run] + runs, c.imageToken)|
    ensures Count([run.token] + rest, c.videoToken) == |GridsOf([run] + runs, c.videoToken)|
    ensures
      var blocks := PromptBlocks(c, [run.token] + rest, GridsOf([run] + runs, c.imageToken),
          GridsOf([run] + runs, c.videoToken));
      ValidBlocks(blocks) && UnitsFit(blocks, UnitsOf([run] + runs))
  {
    hide *;
    var images, frames := GridsOf(runs, c.imageToken), GridsOf(runs, c.videoToken);
    var blocks := PromptBlocks(c, rest, images, frames);
    GridsHead(run, runs, c.imageToken);
    GridsHead(run, runs, c.videoToken);
    BlocksHead(c, run.token, run.grid, rest, images, frames);
    RunSizes(c, run.token, run.grid);
    PrependBlock(RunOf(c, run.token, run.grid), blocks);
    PrependFits(RunOf(c, run.token, run.grid), blocks, run.unit, UnitsOf(runs));
    assert UnitsOf([run] + runs) == [run.unit] + UnitsOf(runs);
  }

  lemma GridsHead<T>(run: Run<T>, runs: seq<Run<T>>, token: int)
    ensures GridsOf([run] + runs, token) == if run.token == token then [run.grid] + GridsOf(runs, token)
        else GridsOf(runs, token)
  {
    assert ([run] + runs)[1..] == runs;
  }

  lemma BlocksHead(c: Config, id: int, g: Grid, rest: seq<int>, images: seq<Grid>, frames: seq<Grid>)
    requires c.imageToken != c.videoToken && IsVision(c, id)
    requires Count(rest, c.imageToken) == |images| && Count(rest, c.videoToken) == |frames|
    ensures
      var images', frames' := if id == c.imageToken then [g] + images else images,
        if id == c.videoToken then [g] + frames else frames;
      && Count([id] + rest, c.imageToken) == |images'| && Count([id] + rest, c.videoToken) == |frames'|
      && PromptBlocks(c, [id] + rest, images', frames') == [RunOf(c, id, g)] + PromptBlocks(c, rest, images, frames)
  {
    hide RunOf;
    assert ([id] + rest)[1..] == rest;
    assert ([g] + images)[1..] == images && ([g] + frames)[1..] == frames;
  }

  lemma PrependFits<T>(b: Block, blocks: seq<Block>, unit: seq<T>, units: seq<seq<T>>)
    requires ValidBlock(b) && b.Vision? && ValidBlocks(blocks) && UnitsFit(blocks, units) && |unit| == Size(b)
    ensures ValidBlocks([b] + blocks) && UnitsFit([b] + blocks, [unit] + units)
  {
    assert ([b] + blocks)[1..] == blocks && ([unit] + units)[1..] == units;
  }

  lemma RunSizes(c: Config, token: int, g: Grid)
    requires GoodGrid(c, g)
    ensures RunOf(c, token, g).Vision? && ValidBlock(RunOf(c, token, g)) && Size(RunOf(c, token, g)) == GridCount(c, g)
  {
  }

  /** End to end: when the prompt's placeholders come in the order of the conversation's images and video frames, the
      prompt fits as soon as equal placeholders are apart, and an assembled prefill has, run by run, the rows of that
      image or frame. */
  lemma AssembledByDocument<T>(c: Config, embed: int -> T, prompt: seq<int>, contents: seq<Content<T>>, out: Prefill<T>)
    requires TowerOk(c, contents) && c.imageToken != c.videoToken && Separated(c, prompt)
    requires Placeholders(c, prompt) == TokensOf(Runs(c, contents))
    ensures Fits(c, prompt, contents)
    ensures
      var blocks := PromptBlocks(c, prompt, ImageGrids(contents), Frames(VideoGrids(contents)));
      && ValidBlocks(blocks) && UnitsFit(blocks, Units(c, contents))
      && (Assembled(c, embed, prompt, contents, out) ==> out.embeds == BlockRows(embed, blocks, Units(c, contents)))
  {
    RunsAreContents(c, contents);
    PromptFollowsRuns(c, prompt, Runs(c, contents));
    if Assembled(c, embed, prompt, contents, out) {
      AssembledByUnits(c, embed, prompt, contents, out);
    }
  }
}
