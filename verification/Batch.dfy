/** src/decode/batch.rs: synchronous batching over one left-padded cache with compaction. */
module Batch {
  import opened Prelude
  import opened Attention
  import opened KvCache
  import opened Llama
  import opened CausalLm
  import opened Stream
  import opened Scheduler
  import opened Lanes
  import opened Timing

  const PAD_ID: int := 0

  /** A batch lane carries its left-pad width. */
  type BatchLane = Lane<nat>

  // ----- left padding is invisible -----

  /** Column `i` of a padded prompt row attends the real columns up to itself; a padding column only itself. */
  predicate PrefillKeep(keep: seq<seq<bool>>, pad: nat, width: nat)
  {
    && |keep| == width
    && (forall i :: 0 <= i < width ==> |keep[i]| == width)
    && forall i, j :: 0 <= i < width && 0 <= j < width ==> (keep[i][j] <==> j <= i && (j >= pad || j == i))
  }

  /** A decode step's single query attends every cached column but the padding. */
  predicate DecodeKeep(keep: seq<bool>, pad: nat, width: nat)
  {
    |keep| == width && forall j :: 0 <= j < width ==> (keep[j] <==> j >= pad)
  }

  /** A real row of a left-padded prompt sees exactly what the unpadded prompt's row sees. */
  lemma PaddedRowSees(all: seq<KV>, keep: seq<seq<bool>>, pad: nat, i: nat, n: nat)
    requires |all| == n && pad + i < n && PrefillKeep(keep, pad, n)
    ensures MaskFits(Additive(keep), n, n)
    ensures VisibleTo(Additive(keep), all, pad + i, n) == VisibleTo(Causal, all[pad..], i, n - pad)
  {
    VisibleWindow(all, keep[pad + i], pad, pad + i + 1);
    assert all[pad..pad + i + 1] == all[pad..][..i + 1];
  }

  /** One masked layer over a padded row: past the padding, states, keys and values are the unpadded layer's. */
  lemma PaddedLayerPrefill(l: Layer, xs: seq<Vec>, pos: seq<int>, keep: seq<seq<bool>>, pad: nat)
    requires |pos| == |xs| && pad < |xs| && PrefillKeep(keep, pad, |xs|)
    ensures MaskFits(Additive(keep), |xs|, |xs|)
    ensures LayerKv(l, xs, pos, [])[pad..] == LayerKv(l, xs[pad..], pos[pad..], [])
    ensures LayerOut(l, xs, pos, [], Additive(keep))[pad..] == LayerOut(l, xs[pad..], pos[pad..], [], Causal)
  {
    var all, own := LayerKv(l, xs, pos, []), LayerKv(l, xs[pad..], pos[pad..], []);
    assert all[pad..] == own;
    var padded := LayerOut(l, xs, pos, [], Additive(keep));
    var solo := LayerOut(l, xs[pad..], pos[pad..], [], Causal);
    hide LayerKv, LayerOut;
    forall i | 0 <= i < |xs| - pad ensures padded[pad..][i] == solo[i] {
      PaddedRowSees(all, keep, pad, i, |xs|);
      assert padded[pad..][i] == padded[pad + i];
    }
  }

  /** The same through any number of masked layers. */
  lemma {:induction false} PaddedStackPrefill(ls: seq<Layer>, xs: seq<Vec>, pos: seq<int>, keep: seq<seq<bool>>,
      pad: nat, empty: seq<seq<KV>>)
    requires |pos| == |xs| && pad < |xs| && PrefillKeep(keep, pad, |xs|)
    requires |empty| == |ls| && forall i :: 0 <= i < |empty| ==> empty[i] == []
    ensures StackFits(ls, xs, pos, empty, Additive(keep)) && StackFits(ls, xs[pad..], pos[pad..], empty, Causal)
    ensures StackOut(ls, xs, pos, empty, Additive(keep))[pad..] == StackOut(ls, xs[pad..], pos[pad..], empty, Causal)
    ensures forall l :: 0 <= l < |ls| ==>
      StackKv(ls, xs, pos, empty, Additive(keep))[l][pad..] == StackKv(ls, xs[pad..], pos[pad..], empty, Causal)[l]
    decreases |ls|
  {
    if ls != [] {
      PaddedLayerPrefill(ls[0], xs, pos, keep, pad);
      var xs' := LayerOut(ls[0], xs, pos, empty[0], Additive(keep));
      PaddedStackPrefill(ls[1..], xs', pos, keep, pad, empty[1..]);
    }
  }

  /** One masked decode layer over a padded cache row is the unpadded causal layer. */
  lemma PaddedLayerDecode(l: Layer, x: Vec, pos: int, past: seq<KV>, keep: seq<bool>, pad: nat)
    requires pad <= |past| && DecodeKeep(keep, pad, |past| + 1)
    ensures LayerKv(l, [x], [pos], past)[pad..] == LayerKv(l, [x], [pos], past[pad..])
    ensures LayerOut(l, [x], [pos], past, Additive([keep])) == LayerOut(l, [x], [pos], past[pad..], Causal)
  {
    var all, own := LayerKv(l, [x], [pos], past), LayerKv(l, [x], [pos], past[pad..]);
    assert all[pad..] == own;
    VisibleWindow(all, keep, pad, |all|);
    assert VisibleTo(Additive([keep]), all, 0, 1) == all[pad..|all|] == own;
    assert VisibleTo(Causal, own, 0, 1) == own;
    var padded, solo := LayerOut(l, [x], [pos], past, Additive([keep])), LayerOut(l, [x], [pos], past[pad..], Causal);
    assert padded[0] == solo[0];
  }

  /** A cache view cut to the columns past the padding. */
  function Unpadded(view: seq<seq<KV>>, pad: nat): (out: seq<seq<KV>>)
    requires forall l :: 0 <= l < |view| ==> pad <= |view[l]|
    ensures |out| == |view|
    ensures forall l :: 0 <= l < |view| ==> out[l] == view[l][pad..]
  {
    seq(|view|, l requires 0 <= l < |view| && pad <= |view[l]| => view[l][pad..])
  }

  lemma {:induction false} PaddedStackDecode(ls: seq<Layer>, x: Vec, pos: int, past: seq<seq<KV>>, keep: seq<bool>,
      pad: nat, width: nat)
    requires |past| == |ls| && pad <= width && DecodeKeep(keep, pad, width + 1)
    requires forall l :: 0 <= l < |past| ==> |past[l]| == width
    ensures StackFits(ls, [x], [pos], past, Additive([keep]))
    ensures StackOut(ls, [x], [pos], past, Additive([keep])) == StackOut(ls, [x], [pos], Unpadded(past, pad), Causal)
    ensures Unpadded(StackKv(ls, [x], [pos], past, Additive([keep])), pad)
         == StackKv(ls, [x], [pos], Unpadded(past, pad), Causal)
    decreases |ls|
  {
    hide LayerOut, LayerKv;
    if ls != [] {
      PaddedLayerDecode(ls[0], x, pos, past[0], keep, pad);
      var xs' := LayerOut(ls[0], [x], [pos], past[0], Additive([keep]));
      assert xs' == [xs'[0]];
      PaddedStackDecode(ls[1..], xs'[0], pos, past[1..], keep, pad, width);
      assert Unpadded(past[1..], pad) == Unpadded(past, pad)[1..];
      var kv := StackKv(ls, [x], [pos], past, Additive([keep]));
      assert Unpadded(kv, pad) == [kv[0][pad..]] + Unpadded(kv[1..], pad);
    }
  }

  /** A cache row is padding junk followed by exactly the keys and values of `toks`. */
  ghost predicate PaddedHolds(m: Model, view: seq<seq<KV>>, pad: nat, toks: seq<int>)
  {
    && |view| == |m.layers|
    && (forall l :: 0 <= l < |view| ==> |view[l]| == pad + |toks|)
    && Unpadded(view, pad) == CacheOf(m, toks)
  }

  /** The padded ids and positions of one prompt. */
  function PaddedIds(prompt: seq<int>, width: nat): (out: seq<int>)
    requires |prompt| <= width
    ensures |out| == width
  {
    seq(width - |prompt|, _ => PAD_ID) + prompt
  }

  function PaddedPositions(n: nat, width: nat): (out: seq<int>)
    requires n <= width
    ensures |out| == width
  {
    seq(width - n, _ => 0) + Positions(0, n)
  }

  /** The masked prefill of a left-padded prompt reports the prompt's own logits and caches its own keys. */
  lemma PaddedPrefillIsSolo(m: Model, prompt: seq<int>, width: nat, keep: seq<seq<bool>>)
    requires 0 < |prompt| <= width && PrefillKeep(keep, width - |prompt|, width)
    ensures var xs, pos := Embeds(m, PaddedIds(prompt, width)), PaddedPositions(|prompt|, width);
      && StackFits(m.layers, xs, pos, Empty(m), Additive(keep))
      && m.projectLogits(StackOut(m.layers, xs, pos, Empty(m), Additive(keep))[width - 1]) == Logits(m, prompt)
      && PaddedHolds(m, StackKv(m.layers, xs, pos, Empty(m), Additive(keep)), width - |prompt|, prompt)
  {
    hide PrefillKeep, StackOut, StackKv;
    var pad := width - |prompt|;
    var xs, pos := Embeds(m, PaddedIds(prompt, width)), PaddedPositions(|prompt|, width);
    assert xs[pad..] == Embeds(m, prompt) && pos[pad..] == Positions(0, |prompt|);
    PaddedStackPrefill(m.layers, xs, pos, keep, pad, Empty(m));
    var out := StackOut(m.layers, xs, pos, Empty(m), Additive(keep));
    assert out[width - 1] == out[pad..][|prompt| - 1];
  }

  /** A masked decode step over a padded row, fed at position `width - pad`, is the unpadded step. */
  lemma PaddedStepIsSolo(m: Model, view: seq<seq<KV>>, pad: nat, held: seq<int>, tok: int, keep: seq<bool>)
    requires PaddedHolds(m, view, pad, held) && DecodeKeep(keep, pad, pad + |held| + 1)
    ensures StackFits(m.layers, [m.embed(tok)], [|held|], view, Additive([keep]))
    ensures m.projectLogits(StackOut(m.layers, [m.embed(tok)], [|held|], view, Additive([keep]))[0])
         == Logits(m, held + [tok])
    ensures PaddedHolds(m, StackKv(m.layers, [m.embed(tok)], [|held|], view, Additive([keep])), pad, held + [tok])
  {
    PaddedStackDecode(m.layers, m.embed(tok), |held|, view, keep, pad, pad + |held|);
    assert Embeds(m, [tok]) == [m.embed(tok)] && Positions(|held|, 1) == [|held|];
    StepIsRecompute(m, held, [tok], 0);
    assert [tok][..1] == [tok];
  }

  // ----- building the inputs -----

  /** The longest prompt. */
  method MaxPrompt(reqs: seq<BatchRequest>) returns (width: nat)
    ensures forall r :: 0 <= r < |reqs| ==> |reqs[r].promptIds| <= width
    ensures reqs != [] ==> exists r :: 0 <= r < |reqs| && |reqs[r].promptIds| == width
  {
    width := 0;
    var i := 0;
    while i < |reqs|
      invariant 0 <= i <= |reqs|
      invariant forall r :: 0 <= r < i ==> |reqs[r].promptIds| <= width
      invariant if i == 0 then width == 0 else exists r :: 0 <= r < i && |reqs[r].promptIds| == width
    {
      width := Max(width, |reqs[i].promptIds|);
      i := i + 1;
    }
  }

  /** The inputs of the padded prefill for one request. */
  ghost predicate PrefillRow(prompt: seq<int>, width: nat, ids: seq<int>, pos: seq<int>, mask: AttnMask)
    requires |prompt| <= width
  {
    && ids == PaddedIds(prompt, width) && pos == PaddedPositions(|prompt|, width)
    && mask.Additive? && PrefillKeep(mask.keep, width - |prompt|, width)
  }

  /** One request's rows: ids, positions and mask pushed column by column. */
  method BuildPrefillRow(prompt: seq<int>, width: nat) returns (ids: seq<int>, pos: seq<int>, mask: AttnMask)
    requires |prompt| <= width
    ensures PrefillRow(prompt, width, ids, pos, mask)
  {
    var pad := width - |prompt|;
    ids, pos := [], [];
    var c := 0;
    while c < width
      invariant 0 <= c <= width
      invariant ids == PaddedIds(prompt, width)[..c] && pos == PaddedPositions(|prompt|, width)[..c]
    {
      if c < pad {
        ids, pos := ids + [PAD_ID], pos + [0];
      } else {
        ids, pos := ids + [prompt[c - pad]], pos + [c - pad];
      }
      c := c + 1;
    }
    var keep: seq<seq<bool>> := [];
    var i := 0;
    while i < width
      invariant 0 <= i <= width && |keep| == i
      invariant forall r :: 0 <= r < i ==> |keep[r]| == width
      invariant forall r, j :: 0 <= r < i && 0 <= j < width ==> (keep[r][j] <==> j <= r && (j >= pad || j == r))
    {
      var row: seq<bool> := [];
      var j := 0;
      while j < width
        invariant 0 <= j <= width && |row| == j
        invariant forall x :: 0 <= x < j ==> (row[x] <==> x <= i && (x >= pad || x == i))
      {
        row := row + [j <= i && (j >= pad || j == i)];
        j := j + 1;
      }
      keep := keep + [row];
      i := i + 1;
    }
    mask := Additive(keep);
  }

  /** `build_prefill`. */
  method BuildPrefill(reqs: seq<BatchRequest>, width: nat)
    returns (ids: seq<seq<int>>, pos: seq<seq<int>>, masks: seq<AttnMask>)
    requires forall r :: 0 <= r < |reqs| ==> |reqs[r].promptIds| <= width
    ensures |ids| == |pos| == |masks| == |reqs|
    ensures forall r :: 0 <= r < |reqs| ==> PrefillRow(reqs[r].promptIds, width, ids[r], pos[r], masks[r])
  {
    ids, pos, masks := [], [], [];
    var r := 0;
    while r < |reqs|
      invariant 0 <= r <= |reqs| && |ids| == |pos| == |masks| == r
      invariant forall i :: 0 <= i < r ==> PrefillRow(reqs[i].promptIds, width, ids[i], pos[i], masks[i])
    {
      var i, p, k := BuildPrefillRow(reqs[r].promptIds, width);
      ids, pos, masks := ids + [i], pos + [p], masks + [k];
      r := r + 1;
    }
  }

  /** `decode_mask`. */
  method DecodeMask(active: seq<BatchLane>, kTotal: nat) returns (masks: seq<AttnMask>)
    ensures |masks| == |active|
    ensures forall r :: 0 <= r < |active| ==>
      masks[r].Additive? && |masks[r].keep| == 1 && DecodeKeep(masks[r].keep[0], active[r].slot, kTotal)
  {
    masks := [];
    var r := 0;
    while r < |active|
      invariant 0 <= r <= |active| && |masks| == r
      invariant forall i :: 0 <= i < r ==>
        masks[i].Additive? && |masks[i].keep| == 1 && DecodeKeep(masks[i].keep[0], active[i].slot, kTotal)
    {
      var row: seq<bool> := [];
      var j := 0;
      while j < kTotal
        invariant 0 <= j <= kTotal && |row| == j
        invariant forall x :: 0 <= x < j ==> (row[x] <==> x >= active[r].slot)
      {
        row := row + [j >= active[r].slot];
        j := j + 1;
      }
      masks := masks + [Additive([row])];
      r := r + 1;
    }
  }

  // ----- the shared cache -----

  /** Cache row `r` belongs to lane `r`: its padding, then exactly the first tokens of its history. `fed` says whether
      the history's last token is already in. */
  ghost predicate RowsHold(m: Model, slots: Slots, lanes: seq<BatchLane>, width: nat, fed: bool)
  {
    && ValidModel(m) && |slots| == |m.layers|
    && (forall l :: 0 <= l < |slots| ==> slots[l].Some? && |slots[l].value| == |lanes|)
    && forall r :: 0 <= r < |lanes| ==> RowHolds(m, slots, lanes[r], r, width, fed)
  }

  ghost predicate RowHolds(m: Model, slots: Slots, lane: BatchLane, r: nat, width: nat, fed: bool)
  {
    && lane.history != [] && lane.nextToken == lane.history[|lane.history| - 1]
    && var held := if fed then lane.history else lane.history[..|lane.history| - 1];
    && lane.slot + |held| == width && PaddedHolds(m, Row(slots, r), lane.slot, held)
  }

  /** `decode_logits_masked`: every row's last-column logits. */
  method DecodeLogitsMasked(m: Model, ids: seq<seq<int>>, cache: ContiguousKvCache, pos: seq<seq<int>>,
      masks: seq<AttnMask>)
    returns (logits: seq<Vec>)
    requires |ids| == |pos| == |masks| && forall r :: 0 <= r < |ids| ==> ids[r] != []
    requires BatchFits(m.layers, EmbedRows(m, ids), pos, masks, cache.layers)
    modifies cache
    ensures |logits| == |ids| && |cache.layers| == |m.layers|
    ensures forall l :: 0 <= l < |m.layers| ==> cache.layers[l].Some? && |cache.layers[l].value| == |ids|
    ensures forall r :: 0 <= r < |ids| ==>
      && logits[r] == m.projectLogits(StackOut(m.layers, Embeds(m, ids[r]), pos[r], Row(old(cache.layers), r),
          masks[r])[|ids[r]| - 1])
      && Row(cache.layers, r) == StackKv(m.layers, Embeds(m, ids[r]), pos[r], Row(old(cache.layers), r), masks[r])
  {
    var h := RunDecoderStack(m.layers, EmbedRows(m, ids), pos, masks, cache);
    logits := LastLogits(m, ids, h);
  }

  function EmbedRows(m: Model, ids: seq<seq<int>>): (out: seq<seq<Vec>>)
    ensures |out| == |ids|
    ensures forall r :: 0 <= r < |ids| ==> out[r] == Embeds(m, ids[r])
  {
    seq(|ids|, r requires 0 <= r < |ids| => Embeds(m, ids[r]))
  }

  function LastLogits(m: Model, ids: seq<seq<int>>, h: seq<seq<Vec>>): (out: seq<Vec>)
    requires |h| == |ids| && forall r :: 0 <= r < |ids| ==> ids[r] != [] && |h[r]| == |ids[r]|
    ensures |out| == |ids|
    ensures forall r :: 0 <= r < |ids| ==> out[r] == m.projectLogits(h[r][|ids[r]| - 1])
  {
    seq(|ids|, r requires 0 <= r < |ids| && ids[r] != [] && |h[r]| == |ids[r]| => m.projectLogits(h[r][|ids[r]| - 1]))
  }

  /** The padded prefill of every prompt at once. */
  method Prefill(m: Model, reqs: seq<BatchRequest>, width: nat, cache: ContiguousKvCache) returns (logits: seq<Vec>)
    requires ValidModel(m) && ValidRequests(reqs)
    requires forall r :: 0 <= r < |reqs| ==> |reqs[r].promptIds| <= width
    requires |cache.layers| == |m.layers| && forall l :: 0 <= l < |cache.layers| ==> cache.layers[l] == None
    modifies cache
    ensures |logits| == |reqs| && |cache.layers| == |m.layers|
    ensures forall l :: 0 <= l < |m.layers| ==> cache.layers[l].Some? && |cache.layers[l].value| == |reqs|
    ensures forall r :: 0 <= r < |reqs| ==>
      && logits[r] == Logits(m, reqs[r].promptIds)
      && PaddedHolds(m, Row(cache.layers, r), width - |reqs[r].promptIds|, reqs[r].promptIds)
  {
    hide Logits, PaddedHolds, StackFits, StackOut, StackKv, PrefillRow;
    var ids, pos, masks := BuildPrefill(reqs, width);
    ghost var before := cache.layers;
    forall r | 0 <= r < |reqs|
      ensures StackFits(m.layers, Embeds(m, ids[r]), pos[r], Row(before, r), masks[r]) && |ids[r]| == width > 0
    {
      PrefillRowIsSolo(m, reqs[r].promptIds, width, ids[r], pos[r], masks[r], Row(before, r));
    }
    logits := DecodeLogitsMasked(m, ids, cache, pos, masks);
    forall r | 0 <= r < |reqs|
      ensures logits[r] == Logits(m, reqs[r].promptIds)
      ensures PaddedHolds(m, Row(cache.layers, r), width - |reqs[r].promptIds|, reqs[r].promptIds)
    {
      PrefillRowIsSolo(m, reqs[r].promptIds, width, ids[r], pos[r], masks[r], Row(before, r));
    }
  }

  lemma PrefillRowIsSolo(m: Model, prompt: seq<int>, width: nat, ids: seq<int>, pos: seq<int>, mask: AttnMask,
                         empty: seq<seq<KV>>)
    requires 0 < |prompt| <= width && PrefillRow(prompt, width, ids, pos, mask)
    requires |empty| == |m.layers| && forall l :: 0 <= l < |empty| ==> empty[l] == []
    ensures |ids| == width && StackFits(m.layers, Embeds(m, ids), pos, empty, mask)
    ensures m.projectLogits(StackOut(m.layers, Embeds(m, ids), pos, empty, mask)[width - 1]) == Logits(m, prompt)
    ensures PaddedHolds(m, StackKv(m.layers, Embeds(m, ids), pos, empty, mask), width - |prompt|, prompt)
  {
    hide StackOut, StackKv, Logits, PaddedHolds, PrefillKeep;
    assert empty == Empty(m);
    PaddedPrefillIsSolo(m, prompt, width, mask.keep);
  }

  /** One lockstep forward: every active row is fed its own token at its own position. */
  method StepRows(m: Model, active: seq<BatchLane>, positions: seq<nat>, cache: ContiguousKvCache, ghost width: nat)
    returns (logits: seq<Vec>)
    requires active != [] && RowsHold(m, cache.layers, active, width, false)
    requires |positions| == |active| && forall r :: 0 <= r < |active| ==> positions[r] == width - active[r].slot
    modifies cache
    ensures |logits| == |active| && RowsHold(m, cache.layers, active, width + 1, true)
    ensures forall r :: 0 <= r < |active| ==> logits[r] == Logits(m, active[r].history)
  {
    hide Logits, PaddedHolds, StackFits, StackOut, StackKv, DecodeKeep, RowHolds;
    WidthIsOffset(m, cache, active, width);
    var kTotal := cache.Offset() + 1;
    var masks := DecodeMask(active, kTotal);
    var ids := seq(|active|, r requires 0 <= r < |active| => [active[r].nextToken]);
    var pos := seq(|active|, r requires 0 <= r < |active| && |positions| == |active| => [positions[r]]);
    ghost var before := cache.layers;
    forall r | 0 <= r < |active|
      ensures StackFits(m.layers, Embeds(m, ids[r]), pos[r], Row(before, r), masks[r])
    {
      RowStep(m, before, active[r], r, width, masks[r]);
    }
    HistoriesNonEmpty(m, before, active, width, false);
    logits := DecodeLogitsMasked(m, ids, cache, pos, masks);
    forall r | 0 <= r < |active|
      ensures logits[r] == Logits(m, active[r].history) && RowHolds(m, cache.layers, active[r], r, width + 1, true)
    {
      RowStep(m, before, active[r], r, width, masks[r]);
      RowHeld(m, cache.layers, active[r], r, width, before);
    }
  }

  lemma HistoriesNonEmpty(m: Model, slots: Slots, lanes: seq<BatchLane>, width: nat, fed: bool)
    requires RowsHold(m, slots, lanes, width, fed)
    ensures forall r :: 0 <= r < |lanes| ==> lanes[r].history != []
  {
    hide PaddedHolds;
  }

  lemma RowHeld(m: Model, after: Slots, lane: BatchLane, r: nat, width: nat, before: Slots)
    requires RowHolds(m, before, lane, r, width, false)
    requires PaddedHolds(m, Row(after, r), lane.slot, lane.history)
    ensures RowHolds(m, after, lane, r, width + 1, true)
  {
  }

  lemma WidthIsOffset(m: Model, cache: ContiguousKvCache, active: seq<BatchLane>, width: nat)
    requires active != [] && RowsHold(m, cache.layers, active, width, false)
    ensures cache.Offset() == width
  {
    assert RowHolds(m, cache.layers, active[0], 0, width, false);
    assert |Row(cache.layers, 0)[0]| == width;
    assert Row(cache.layers, 0)[0] == SlotRow(cache.layers[0], 0);
  }

  lemma RowStep(m: Model, before: Slots, lane: BatchLane, r: nat, width: nat, mask: AttnMask)
    requires |before| == |m.layers| && RowHolds(m, before, lane, r, width, false)
    requires mask.Additive? && |mask.keep| == 1 && DecodeKeep(mask.keep[0], lane.slot, width + 1)
    ensures var xs, pos := Embeds(m, [lane.nextToken]), [width - lane.slot];
      && StackFits(m.layers, xs, pos, Row(before, r), mask)
      && m.projectLogits(StackOut(m.layers, xs, pos, Row(before, r), mask)[0]) == Logits(m, lane.history)
      && PaddedHolds(m, StackKv(m.layers, xs, pos, Row(before, r), mask), lane.slot, lane.history)
  {
    hide Logits, PaddedHolds;
    var held := lane.history[..|lane.history| - 1];
    assert held + [lane.nextToken] == lane.history && mask.keep == [mask.keep[0]];
    assert Embeds(m, [lane.nextToken]) == [m.embed(lane.nextToken)];
    PaddedStepIsSolo(m, Row(before, r), lane.slot, held, lane.nextToken, mask.keep[0]);
  }

  /** Compaction: after gathering the kept rows, row `i` is the row that was `keep[i]`. */
  lemma GatheredRow(before: Slots, after: Slots, keep: seq<nat>, i: nat)
    requires |after| == |before| && i < |keep|
    requires forall l :: 0 <= l < |before| ==> before[l].Some? && forall k :: 0 <= k < |keep| ==>
        keep[k] < |before[l].value|
    requires forall l :: 0 <= l < |after| ==> after[l].Some? && after[l].value == Gather(before[l].value, keep)
    ensures Row(after, i) == Row(before, keep[i])
  {
  }

  /** Retire the rows not kept, as `generate_batch` does after the prefill and after every step. */
  method Compact(m: Model, cache: ContiguousKvCache, rows: nat, ghost lanes: seq<BatchLane>, survivors: seq<BatchLane>,
                 keep: seq<nat>, ghost width: nat)
    requires rows == |lanes| && RowsHold(m, cache.layers, lanes, width, true) && survivors != []
    requires |keep| == |survivors| && Increasing(keep, |lanes|)
    requires forall i :: 0 <= i < |survivors| ==>
      Advanced(lanes[keep[i]], survivors[i]) && survivors[i].slot == lanes[keep[i]].slot
    modifies cache
    ensures RowsHold(m, cache.layers, survivors, width, false)
  {
    hide PaddedHolds;
    ghost var before := cache.layers;
    IncreasingFits(keep, |lanes|);
    if |survivors| < rows {
      cache.RetainSequences(keep);
      forall i | 0 <= i < |survivors| ensures RowHolds(m, cache.layers, survivors[i], i, width, false) {
        GatheredRow(before, cache.layers, keep, i);
        assert RowHolds(m, before, lanes[keep[i]], keep[i], width, true);
      }
    } else {
      forall i | 0 <= i < |survivors| ensures RowHolds(m, cache.layers, survivors[i], i, width, false) {
        assert RowHolds(m, before, lanes[i], i, width, true);
      }
    }
  }

  // ----- the run -----

  /** The rows as the prefill leaves them, before any token is sampled. */
  ghost function StartLanes(reqs: seq<BatchRequest>, width: nat): (out: seq<BatchLane>)
    requires ValidRequests(reqs) && forall r :: 0 <= r < |reqs| ==> |reqs[r].promptIds| <= width
    ensures |out| == |reqs|
    ensures forall r :: 0 <= r < |reqs| ==>
      out[r] == Lane(r, width - |reqs[r].promptIds|, reqs[r].seed, reqs[r].sampling, reqs[r].promptIds,
                     reqs[r].promptIds[|reqs[r].promptIds| - 1])
  {
    seq(|reqs|, r requires 0 <= r < |reqs| =>
      Lane(r, width - |reqs[r].promptIds|, reqs[r].seed, reqs[r].sampling, reqs[r].promptIds,
           reqs[r].promptIds[|reqs[r].promptIds| - 1]))
  }

  /** Every request is admitted before any step. */
  function AtOnce(n: nat): (times: seq<nat>)
    ensures |times| == n && forall i :: 0 <= i < n ==> times[i] == 0
  {
    seq(n, _ => 0)
  }

  lemma NoClock<C>(seqs: seq<SeqState>)
    ensures OnClock<C>(seqs, AtOnce(0), 0, [])
  {
  }

  lemma AdmitAtOnce<C>(m: Model, reqs: seq<BatchRequest>, before: seq<SeqState>, after: seq<SeqState>,
                       events: seq<TaggedEvent>, ri: nat, active: seq<Lane<C>>, lane: Option<Lane<C>>)
    requires ValidRequests(reqs) && Books(m, reqs, before, events, ri, active) && OnClock(before, AtOnce(ri), 0, active)
    requires ri < |reqs| == |after| && forall rj :: 0 <= rj < |reqs| && rj != ri ==> after[rj] == before[rj]
    requires DrawnBy(after[ri]) <= 1 && (lane.Some? ==> lane.value.reqIndex == ri && DrawnBy(after[ri]) == 1)
    ensures OnClock(after, AtOnce(ri + 1), 0, if lane.Some? then active + [lane.value] else active)
  {
    hide DrawnBy;
    ClockAdmits(before, after, AtOnce(ri), 0, active, lane);
    assert AtOnce(ri) + [0] == AtOnce(ri + 1);
  }

  /** Sample every prompt's first token; keep the lanes that did not retire at once. */
  method RecordPrefill(m: Model, reqs: seq<BatchRequest>, width: nat, sched: Scheduler, logits: seq<Vec>)
    returns (active: seq<BatchLane>, keep: seq<nat>, events: seq<TaggedEvent>)
    requires ValidRequests(reqs) && forall r :: 0 <= r < |reqs| ==> |reqs[r].promptIds| <= width
    requires |logits| == |reqs| && forall r :: 0 <= r < |reqs| ==> logits[r] == Logits(m, reqs[r].promptIds)
    requires Books<nat>(m, reqs, sched.seqs, [], 0, [])
    modifies sched
    ensures Books(m, reqs, sched.seqs, events, |reqs|, active)
    ensures OnClock(sched.seqs, AtOnce(|reqs|), 0, active)
    ensures |keep| == |active| && Increasing(keep, |reqs|)
    ensures forall i :: 0 <= i < |active| ==>
      Advanced(StartLanes(reqs, width)[keep[i]], active[i]) && active[i].slot == StartLanes(reqs, width)[keep[i]].slot
  {
    hide Logits, Books, Live, Retired, Queued, Tag, OnClock, DrawnBy;
    active, keep, events := [], [], [];
    NoClock<nat>(sched.seqs);
    var ri := 0;
    while ri < |reqs|
      invariant 0 <= ri <= |reqs|
      invariant Books(m, reqs, sched.seqs, events, ri, active)
      invariant OnClock(sched.seqs, AtOnce(ri), 0, active)
      invariant |keep| == |active| && Increasing(keep, ri)
      invariant forall i :: 0 <= i < |active| ==>
        Advanced(StartLanes(reqs, width)[keep[i]], active[i]) && active[i].slot == StartLanes(reqs, width)[keep[i]].slot
    {
      var r := reqs[ri];
      NextIsQueued(m, reqs, sched.seqs, events, ri, active);
      ghost var seqs0 := sched.seqs;
      if !sched.IsActive(ri) {
        ZeroBudgetRetired(m, r, sched.seqs[ri]);
        AdmitAtOnce<nat>(m, reqs, seqs0, seqs0, events, ri, active, None);
        BooksAdmit<nat>(m, reqs, seqs0, seqs0, events, [Done(MaxTokens, 0)], ri, active, None);
        events := events + Tag(ri, [Done(MaxTokens, 0)]);
      } else {
        var pad: nat := width - |r.promptIds|;
        var lane, emitted := RecordFirst<nat>(m, r, ri, sched, logits[ri], pad);
        AdmitAtOnce<nat>(m, reqs, seqs0, sched.seqs, events, ri, active, lane);
        BooksAdmit<nat>(m, reqs, seqs0, sched.seqs, events, emitted, ri, active, lane);
        events := events + Tag(ri, emitted);
        if lane.Some? {
          LiveFacts(m, r, sched.seqs[ri], emitted, lane.value);
          active, keep := active + [lane.value], keep + [ri];
        }
      }
      ri := ri + 1;
    }
  }

  /** The positions a lockstep step feeds: prompt plus generated, minus the token being fed. */
  method FeedPositions(m: Model, reqs: seq<BatchRequest>, sched: Scheduler, active: seq<BatchLane>,
      ghost events: seq<TaggedEvent>)
    returns (positions: seq<nat>)
    requires ValidRequests(reqs) && Books(m, reqs, sched.seqs, events, |reqs|, active)
    ensures |positions| == |active|
    ensures forall r :: 0 <= r < |active| ==> active[r].history != [] && positions[r] == |active[r].history| - 1
  {
    positions := [];
    var r := 0;
    while r < |active|
      invariant 0 <= r <= |active| && |positions| == r
      invariant forall i :: 0 <= i < r ==> active[i].history != [] && positions[i] == |active[i].history| - 1
    {
      LaneIsLive(m, reqs, sched.seqs, events, |reqs|, active, r);
      positions := positions + [sched.Offset(active[r].reqIndex) - 1];
      r := r + 1;
    }
  }

  /** Signal the rows still running at a cancel. */
  method CancelRows(m: Model, reqs: seq<BatchRequest>, sched: Scheduler, active: seq<BatchLane>,
      events0: seq<TaggedEvent>)
    returns (events: seq<TaggedEvent>)
    requires ValidRequests(reqs) && Books(m, reqs, sched.seqs, events0, |reqs|, active)
    ensures |sched.seqs| == |reqs|
    ensures forall ri :: 0 <= ri < |reqs| ==>
      Delivered(m, reqs[ri], OutputOf(sched.seqs[ri]), EventsFor(events, ri))
    ensures forall e :: e in events ==> e.0 < |reqs|
  {
    hide Signalled, Books, Delivered, EventsFor, OutputOf;
    events := events0;
    SignalStart(m, reqs, sched.seqs, events, |reqs|, active);
    assert active[0..] == active;
    var k := 0;
    while k < |active|
      invariant 0 <= k <= |active|
      invariant Signalled(m, reqs, sched.seqs, events, |reqs|, active[k..], |reqs|)
    {
      var lane := active[k];
      assert active[k..] == [lane] + active[k + 1..];
      SignalLane(m, reqs, sched.seqs, events, |reqs|, lane, active[k + 1..]);
      events := events + Tag(lane.reqIndex, [Done(Cancelled, |sched.seqs[lane.reqIndex].generated|)]);
      k := k + 1;
    }
    assert active[k..] == [];
    SignalBounds<nat>(m, reqs, sched.seqs, events, |reqs|, [], |reqs|);
  }

  /** One pass of the lockstep loop: forward, sample, retire, compact. */
  method LockStep(m: Model, reqs: seq<BatchRequest>, sched: Scheduler, cache: ContiguousKvCache, active: seq<BatchLane>,
                  events0: seq<TaggedEvent>, ghost width: nat)
    returns (next: seq<BatchLane>, events: seq<TaggedEvent>)
    requires active != [] && ValidRequests(reqs)
    requires Books(m, reqs, sched.seqs, events0, |reqs|, active) && RowsHold(m, cache.layers, active, width, false)
    modifies sched, cache
    ensures Books(m, reqs, sched.seqs, events, |reqs|, next)
    ensures next != [] ==> RowsHold(m, cache.layers, next, width + 1, false)
    ensures Remaining(sched.seqs) < old(Remaining(sched.seqs))
    ensures Redrawn(old(sched.seqs), sched.seqs, active)
  {
    hide Books, RowsHold, Remaining, Logits, Redrawn;
    var positions := FeedPositions(m, reqs, sched, active, events0);
    RowPositions(m, cache.layers, active, width);
    var logits := StepRows(m, active, positions, cache, width);
    var keep;
    next, keep, events := RecordRows(m, reqs, sched, active, logits, |reqs|, events0);
    if next != [] {
      Compact(m, cache, |active|, active, next, keep, width + 1);
    }
  }

  lemma RowPositions(m: Model, slots: Slots, lanes: seq<BatchLane>, width: nat)
    requires RowsHold(m, slots, lanes, width, false)
    ensures forall r :: 0 <= r < |lanes| ==> lanes[r].history != [] && |lanes[r].history| - 1 == width - lanes[r].slot
  {
    hide PaddedHolds;
    assert forall r :: 0 <= r < |lanes| ==> RowHolds(m, slots, lanes[r], r, width, false);
  }

  lemma StartRows(m: Model, reqs: seq<BatchRequest>, width: nat, slots: Slots)
    requires ValidModel(m) && ValidRequests(reqs) && forall r :: 0 <= r < |reqs| ==> |reqs[r].promptIds| <= width
    requires |slots| == |m.layers|
    requires forall l :: 0 <= l < |slots| ==> slots[l].Some? && |slots[l].value| == |reqs|
    requires forall r :: 0 <= r < |reqs| ==>
      PaddedHolds(m, Row(slots, r), width - |reqs[r].promptIds|, reqs[r].promptIds)
    ensures RowsHold(m, slots, StartLanes(reqs, width), width, true)
  {
    hide PaddedHolds;
    forall r | 0 <= r < |reqs| ensures RowHolds(m, slots, StartLanes(reqs, width)[r], r, width, true) {
    }
  }

  /** At the end every row is its request's solo run under the flag, all started at once. */
  lemma RowsEnd(m: Model, reqs: seq<BatchRequest>, seqs: seq<SeqState>, events: seq<TaggedEvent>, now: nat,
                active: seq<BatchLane>, cancel: CancelFlag)
    requires ValidRequests(reqs) && Books(m, reqs, seqs, events, |reqs|, active)
    requires OnClock(seqs, AtOnce(|reqs|), now, active) && !Tripped(cancel, now)
    requires active == [] || Tripped(cancel, now + 1)
    ensures |seqs| == |reqs|
    ensures forall ri :: 0 <= ri < |reqs| ==> OutputOf(seqs[ri]) == UnderFlag(m, reqs[ri], cancel, 0)
    ensures cancel.Never? ==> forall ri :: 0 <= ri < |reqs| ==> OutputOf(seqs[ri]) == SoloOf(m, reqs[ri])
  {
    hide Books, OnClock, UnderFlag, OutputOf;
    BooksSizes(m, reqs, seqs, events, |reqs|, active);
    forall ri | 0 <= ri < |reqs|
      ensures OutputOf(seqs[ri]) == UnderFlag(m, reqs[ri], cancel, 0)
      ensures cancel.Never? ==> OutputOf(seqs[ri]) == SoloOf(m, reqs[ri])
    {
      TakenEnds(m, reqs, seqs, events, AtOnce(|reqs|), now, active, cancel, ri);
      UnderFlagIsCut(m, reqs[ri], cancel, 0);
    }
  }

  /** `generate_batch`. Each request's events and output are its solo run's under the same flag, whatever it was batched
      with: every request gets exactly one `Done`, last, matching its output. */
  method GenerateBatch(m: Model, reqs: seq<BatchRequest>, cancel: CancelFlag)
    returns (res: Result<seq<GenerationOutput>, Error>, events: seq<TaggedEvent>)
    requires ValidModel(m)
    ensures var bad := reqs == [] || !ValidRequests(reqs);
      && (res.Err? <==> bad || Tripped(cancel, 0))
      && (bad ==> res.error.Msg?) && (!bad && Tripped(cancel, 0) ==> res == Err(Canceled))
    ensures res.Err? ==> events == []
    ensures res.Ok? ==> |res.value| == |reqs| && forall e :: e in events ==> e.0 < |reqs|
    ensures res.Ok? ==> forall ri :: 0 <= ri < |reqs| ==> Delivered(m, reqs[ri], res.value[ri], EventsFor(events, ri))
    ensures res.Ok? ==> forall ri :: 0 <= ri < |reqs| ==> res.value[ri] == UnderFlag(m, reqs[ri], cancel, 0)
    ensures res.Ok? && cancel.Never? ==> forall ri :: 0 <= ri < |reqs| ==> res.value[ri] == SoloOf(m, reqs[ri])
  {
    hide Books, RowsHold, Delivered, Logits, PaddedHolds, Remaining, OutputOf, SoloOf, OnClock, Redrawn, UnderFlag;
    if reqs == [] {
      return Err(Msg("generate_batch: no requests")), [];
    }
    if !ValidRequests(reqs) {
      return Err(Msg("generate_batch: a request has an empty prompt")), [];
    }
    if Tripped(cancel, 0) {
      return Err(Canceled), [];
    }
    var width := MaxPrompt(reqs);
    var sched := AdmitAll(reqs);
    StartBooks<nat>(m, reqs, sched.seqs);
    var cache := new ContiguousKvCache(|m.layers|);
    var logits := Prefill(m, reqs, width, cache);
    StartRows(m, reqs, width, cache.layers);
    var active, keep;
    active, keep, events := RecordPrefill(m, reqs, width, sched, logits);
    if active != [] {
      Compact(m, cache, |reqs|, StartLanes(reqs, width), active, keep, width);
    }
    var poll := 1;
    ghost var w := width;
    var cancelled := false;
    while active != []
      invariant fresh(sched) && fresh(cache)
      invariant Books(m, reqs, sched.seqs, events, |reqs|, active)
      invariant active != [] ==> RowsHold(m, cache.layers, active, w, false)
      invariant poll > 0 && !Tripped(cancel, poll - 1)
      invariant OnClock(sched.seqs, AtOnce(|reqs|), poll - 1, active)
      invariant !cancelled
      decreases Remaining(sched.seqs)
    {
      if Tripped(cancel, poll) {
        cancelled := true;
        break;
      }
      poll := poll + 1;
      ghost var seqs0, events1, active0 := sched.seqs, events, active;
      active, events := LockStep(m, reqs, sched, cache, active, events, w);
      ClockTicks(m, reqs, seqs0, sched.seqs, events1, events, AtOnce(|reqs|), poll - 2, active0, active);
      w := w + 1;
    }
    RowsEnd(m, reqs, sched.seqs, events, poll - 1, active, cancel);
    if cancelled {
      events := CancelRows(m, reqs, sched, active, events);
    } else {
      BooksSizes(m, reqs, sched.seqs, events, |reqs|, active);
      AllRetired<nat>(m, reqs, sched.seqs, events);
    }
    return Ok(seq(|sched.seqs|, i requires 0 <= i < |sched.seqs| reads sched => OutputOf(sched.seqs[i]))), events;
  }
}
