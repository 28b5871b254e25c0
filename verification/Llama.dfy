/** src/models/llama.rs: the decoder stack over a KV cache. Norms, projections, RoPE and the feed-forward
    are arbitrary functions of one token's vector (and its absolute position); only attention mixes tokens. */
module Llama {
  import opened Prelude
  import opened Attention
  import opened KvCache

  /** One token's query, key and value after the projections, the q/k norms and RoPE. */
  datatype Projected = Projected(q: Vec, kv: KV)

  datatype Layer = Layer(
    inputNorm: Vec -> Vec,
    project: (Vec, int) -> Projected,
    kernel: Kernel,
    heads: nat,
    headDim: nat,
    output: Vec -> Vec,
    combineFfn: (Vec, Vec) -> Vec)

  datatype Model = Model(embed: int -> Vec, layers: seq<Layer>, projectLogits: Vec -> Vec, vocabSize: nat)

  /** A real decoder has layers: the cache reads its offset from layer 0. */
  predicate ValidModel(m: Model) { m.layers != [] }

  // ----- the forward pass of one batch row, as functions of the cache view -----

  function Project(l: Layer, xs: seq<Vec>, pos: seq<int>): (out: seq<Projected>)
    requires |pos| == |xs|
    ensures |out| == |xs|
    ensures forall i :: 0 <= i < |xs| ==> out[i] == l.project(l.inputNorm(xs[i]), pos[i])
  {
    seq(|xs|, i requires 0 <= i < |xs| => l.project(l.inputNorm(xs[i]), pos[i]))
  }

  function Queries(ps: seq<Projected>): (out: seq<Vec>)
    ensures |out| == |ps|
    ensures forall i :: 0 <= i < |ps| ==> out[i] == ps[i].q
  {
    seq(|ps|, i requires 0 <= i < |ps| => ps[i].q)
  }

  function KeyValues(ps: seq<Projected>): (out: seq<KV>)
    ensures |out| == |ps|
    ensures forall i :: 0 <= i < |ps| ==> out[i] == ps[i].kv
  {
    seq(|ps|, i requires 0 <= i < |ps| => ps[i].kv)
  }

  function Residual(l: Layer, xs: seq<Vec>, attended: seq<Vec>): (out: seq<Vec>)
    requires |attended| == |xs|
    ensures |out| == |xs|
    ensures forall i :: 0 <= i < |xs| ==> out[i] == l.combineFfn(xs[i], l.output(attended[i]))
  {
    seq(|xs|, i requires 0 <= i < |xs| => l.combineFfn(xs[i], l.output(attended[i])))
  }

  /** The keys and values a layer holds after this step: the cached ones, then this step's. */
  function LayerKv(l: Layer, xs: seq<Vec>, pos: seq<int>, past: seq<KV>): (out: seq<KV>)
    requires |pos| == |xs|
    ensures |out| == |past| + |xs|
  {
    past + KeyValues(Project(l, xs, pos))
  }

  function LayerOut(l: Layer, xs: seq<Vec>, pos: seq<int>, past: seq<KV>, mask: AttnMask): (out: seq<Vec>)
    requires |pos| == |xs| && MaskFits(mask, |xs|, |past| + |xs|)
    ensures |out| == |xs|
  {
    Residual(l, xs, Sdpa(l.kernel, Queries(Project(l, xs, pos)), LayerKv(l, xs, pos, past), mask))
  }

  predicate StackFits(ls: seq<Layer>, xs: seq<Vec>, pos: seq<int>, past: seq<seq<KV>>, mask: AttnMask)
  {
    && |pos| == |xs| && |past| == |ls|
    && forall l :: 0 <= l < |ls| ==> MaskFits(mask, |xs|, |past[l]| + |xs|)
  }

  /** The hidden states after every layer. */
  function StackOut(ls: seq<Layer>, xs: seq<Vec>, pos: seq<int>, past: seq<seq<KV>>, mask: AttnMask): (out: seq<Vec>)
    requires StackFits(ls, xs, pos, past, mask)
    ensures |out| == |xs|
    decreases |ls|
  {
    if ls == [] then xs
    else StackOut(ls[1..], LayerOut(ls[0], xs, pos, past[0], mask), pos, past[1..], mask)
  }

  /** The cache view after every layer. */
  function StackKv(ls: seq<Layer>, xs: seq<Vec>, pos: seq<int>, past: seq<seq<KV>>, mask: AttnMask): (out: seq<seq<KV>>)
    requires StackFits(ls, xs, pos, past, mask)
    ensures |out| == |ls|
    ensures forall l :: 0 <= l < |ls| ==> |out[l]| == |past[l]| + |xs|
    decreases |ls|
  {
    if ls == [] then []
    else [LayerKv(ls[0], xs, pos, past[0])]
         + StackKv(ls[1..], LayerOut(ls[0], xs, pos, past[0], mask), pos, past[1..], mask)
  }

  // ----- causal decoding: incremental equals full -----

  lemma LayerKvSplit(l: Layer, x: seq<Vec>, y: seq<Vec>, px: seq<int>, py: seq<int>, past: seq<KV>)
    requires |px| == |x| && |py| == |y|
    ensures LayerKv(l, x + y, px + py, past) == LayerKv(l, y, py, LayerKv(l, x, px, past))
  {
    assert Project(l, x + y, px + py) == Project(l, x, px) + Project(l, y, py);
    assert KeyValues(Project(l, x, px) + Project(l, y, py)) == KeyValues(Project(l, x, px))
        + KeyValues(Project(l, y, py));
  }

  lemma LayerSplit(l: Layer, x: seq<Vec>, y: seq<Vec>, px: seq<int>, py: seq<int>, past: seq<KV>)
    requires |px| == |x| && |py| == |y|
    ensures LayerKv(l, x + y, px + py, past) == LayerKv(l, y, py, LayerKv(l, x, px, past))
    ensures LayerOut(l, x + y, px + py, past, Causal)
         == LayerOut(l, x, px, past, Causal) + LayerOut(l, y, py, LayerKv(l, x, px, past), Causal)
  {
    LayerKvSplit(l, x, y, px, py, past);
    var all := LayerKv(l, x + y, px + py, past);
    var first := LayerKv(l, x, px, past);
    assert first == all[..|past| + |x|];
    hide LayerKv, KeyValues;
    forall i | 0 <= i < |x| + |y|
      ensures LayerOut(l, x + y, px + py, past, Causal)[i]
           == (LayerOut(l, x, px, past, Causal) + LayerOut(l, y, py, first, Causal))[i]
    {
      var seen := all[..|past| + i + 1];
      assert VisibleTo(Causal, all, i, |x| + |y|) == seen;
      if i < |x| {
        assert VisibleTo(Causal, first, i, |x|) == first[..|past| + i + 1] == seen;
      } else {
        assert VisibleTo(Causal, all, i - |x|, |y|) == seen;
      }
    }
  }

  /** Feeding `x` then `y` through the stack over its cache gives the same states and the same cache as
      feeding `x + y` at once, for every layer stack. */
  lemma {:induction false} StackSplit(ls: seq<Layer>, x: seq<Vec>, y: seq<Vec>, px: seq<int>, py: seq<int>,
      past: seq<seq<KV>>)
    requires |px| == |x| && |py| == |y| && |past| == |ls|
    ensures var mid := StackKv(ls, x, px, past, Causal);
      && StackOut(ls, x + y, px + py, past, Causal)
         == StackOut(ls, x, px, past, Causal) + StackOut(ls, y, py, mid, Causal)
      && StackKv(ls, x + y, px + py, past, Causal) == StackKv(ls, y, py, mid, Causal)
    decreases |ls|
  {
    if ls != [] {
      LayerSplit(ls[0], x, y, px, py, past[0]);
      var x', y' := LayerOut(ls[0], x, px, past[0], Causal),
                    LayerOut(ls[0], y, py, LayerKv(ls[0], x, px, past[0]), Causal);
      StackSplit(ls[1..], x', y', px, py, past[1..]);
      assert StackKv(ls, x, px, past, Causal)[1..] == StackKv(ls[1..], x', px, past[1..], Causal);
    }
  }

  function Embeds(m: Model, toks: seq<int>): (out: seq<Vec>)
    ensures |out| == |toks|
    ensures forall i :: 0 <= i < |toks| ==> out[i] == m.embed(toks[i])
  {
    seq(|toks|, i requires 0 <= i < |toks| => m.embed(toks[i]))
  }

  /** RoPE positions `off, off + 1, ...`. */
  function Positions(off: int, n: nat): (out: seq<int>)
    ensures |out| == n
    ensures forall i :: 0 <= i < n ==> out[i] == off + i
  {
    seq(n, i => off + i)
  }

  function Empty(m: Model): (view: seq<seq<KV>>)
    ensures |view| == |m.layers| && forall l :: 0 <= l < |view| ==> view[l] == []
  {
    seq(|m.layers|, _ => [])
  }

  /** The hidden states of a full recompute over `toks`, from an empty cache. */
  function States(m: Model, toks: seq<int>): (out: seq<Vec>)
    ensures |out| == |toks|
  {
    StackOut(m.layers, Embeds(m, toks), Positions(0, |toks|), Empty(m), Causal)
  }

  /** The cache a full recompute over `toks` leaves. */
  function CacheOf(m: Model, toks: seq<int>): (view: seq<seq<KV>>)
    ensures |view| == |m.layers| && forall l :: 0 <= l < |view| ==> |view[l]| == |toks|
  {
    StackKv(m.layers, Embeds(m, toks), Positions(0, |toks|), Empty(m), Causal)
  }

  /** The next-token logits after `toks`: the reference every fast path must reproduce. */
  function Logits(m: Model, toks: seq<int>): Vec
    requires toks != []
  {
    m.projectLogits(States(m, toks)[|toks| - 1])
  }

  /** One cached step on an arbitrary cache view: the states it returns. */
  function StepStates(m: Model, ids: seq<int>, off: int, view: seq<seq<KV>>): (out: seq<Vec>)
    requires |view| == |m.layers|
    ensures |out| == |ids|
  {
    StackOut(m.layers, Embeds(m, ids), Positions(off, |ids|), view, Causal)
  }

  /** One cached step on an arbitrary cache view: the cache it leaves. */
  function StepKv(m: Model, ids: seq<int>, off: int, view: seq<seq<KV>>): (out: seq<seq<KV>>)
    requires |view| == |m.layers|
    ensures |out| == |m.layers| && forall l :: 0 <= l < |out| ==> |out[l]| == |view[l]| + |ids|
  {
    StackKv(m.layers, Embeds(m, ids), Positions(off, |ids|), view, Causal)
  }

  /** Incremental equals full: stepping `s` over the cache of `p` gives the tail of the full recompute's
      states over `p + s`, and exactly its cache. */
  lemma IncrementalIsFull(m: Model, p: seq<int>, s: seq<int>)
    ensures StepStates(m, s, |p|, CacheOf(m, p)) == States(m, p + s)[|p|..]
    ensures StepKv(m, s, |p|, CacheOf(m, p)) == CacheOf(m, p + s)
    ensures States(m, p + s)[..|p|] == States(m, p)
  {
    var x, y, px, py := Embeds(m, p), Embeds(m, s), Positions(0, |p|), Positions(|p|, |s|);
    assert Embeds(m, p + s) == x + y;
    assert Positions(0, |p + s|) == px + py;
    StackSplit(m.layers, x, y, px, py, Empty(m));
    assert States(m, p + s) == States(m, p) + StepStates(m, s, |p|, CacheOf(m, p));
  }

  lemma {:induction false} StackKvExtends(ls: seq<Layer>, xs: seq<Vec>, pos: seq<int>, past: seq<seq<KV>>,
      mask: AttnMask, l: nat)
    requires StackFits(ls, xs, pos, past, mask) && l < |ls|
    ensures StackKv(ls, xs, pos, past, mask)[l][..|past[l]|] == past[l]
    decreases |ls|
  {
    if l > 0 {
      StackKvExtends(ls[1..], LayerOut(ls[0], xs, pos, past[0], mask), pos, past[1..], mask, l - 1);
    }
  }

  /** Causality of the cache: cutting the cache of `toks` to `n` positions leaves the cache of the first
      `n` tokens. This is what makes rollback and prefix reuse exact. */
  lemma CachePrefix(m: Model, toks: seq<int>, n: nat, l: nat)
    requires n <= |toks| && l < |m.layers|
    ensures CacheOf(m, toks)[l][..n] == CacheOf(m, toks[..n])[l]
  {
    var p, s := toks[..n], toks[n..];
    assert toks == p + s;
    IncrementalIsFull(m, p, s);
    StackKvExtends(m.layers, Embeds(m, s), Positions(n, |s|), CacheOf(m, p), Causal, l);
  }

  // ----- the mutable forward -----

  /** What one layer's batched forward does to the states and to the cache slots. */
  ghost predicate LayerStep(l: Layer, idx: nat, xs: seq<seq<Vec>>, pos: seq<seq<int>>, masks: seq<AttnMask>,
                            before: Slots, out: seq<seq<Vec>>, after: Slots)
    requires idx < |before| && |pos| == |masks| == |xs|
    requires forall r :: 0 <= r < |xs| ==> |pos[r]| == |xs[r]|
    requires forall r :: 0 <= r < |xs| ==> MaskFits(masks[r], |xs[r]|, |SlotRow(before[idx], r)| + |xs[r]|)
  {
    && |out| == |xs|
    && (forall r :: 0 <= r < |xs| ==> out[r] == LayerOut(l, xs[r], pos[r], SlotRow(before[idx], r), masks[r]))
    && |after| == |before| && after[idx].Some? && |after[idx].value| == |xs|
    && (forall r :: 0 <= r < |xs| ==>
          after[idx].value[r] == LayerKv(l, xs[r], pos[r], SlotRow(before[idx], r)))
    && forall i :: 0 <= i < |after| && i != idx ==> after[i] == before[i]
  }

  /** LlamaLayer::forward over a batch: project, append to the cache, attend, residual and feed-forward. */
  method LayerForward(l: Layer, idx: nat, xs: seq<seq<Vec>>, pos: seq<seq<int>>, masks: seq<AttnMask>,
                      cache: ContiguousKvCache)
    returns (out: seq<seq<Vec>>)
    requires idx < |cache.layers| && |pos| == |masks| == |xs|
    requires cache.layers[idx].Some? ==> |cache.layers[idx].value| == |xs|
    requires forall r :: 0 <= r < |xs| ==> |pos[r]| == |xs[r]|
    requires forall r :: 0 <= r < |xs| ==>
      MaskFits(masks[r], |xs[r]|, |SlotRow(cache.layers[idx], r)| + |xs[r]|)
    modifies cache
    ensures LayerStep(l, idx, xs, pos, masks, old(cache.layers), out, cache.layers)
  {
    var ps := seq(|xs|, r requires 0 <= r < |xs| && |pos| == |xs| && |pos[r]| == |xs[r]| => Project(l, xs[r], pos[r]));
    var step := seq(|xs|, r requires 0 <= r < |xs| && |ps| == |xs| => KeyValues(ps[r]));
    var all := cache.Update(idx, step);
    out := [];
    var r := 0;
    while r < |xs|
      modifies {}
      invariant 0 <= r <= |xs| && |out| == r
      invariant forall i :: 0 <= i < r ==>
        out[i] == LayerOut(l, xs[i], pos[i], SlotRow(old(cache.layers)[idx], i), masks[i])
    {
      var attended := SdpaDispatch(l.kernel, l.heads, l.headDim, Queries(ps[r]), all[r], masks[r]);
      out := out + [Residual(l, xs[r], attended)];
      r := r + 1;
    }
  }

  /** Everything `RunDecoderStack` asks of its inputs, row by row. */
  predicate BatchFits(ls: seq<Layer>, xs: seq<seq<Vec>>, pos: seq<seq<int>>, masks: seq<AttnMask>, slots: Slots)
  {
    && |pos| == |masks| == |xs| && |slots| == |ls|
    && (forall l :: 0 <= l < |slots| && slots[l].Some? ==> |slots[l].value| == |xs|)
    && forall r :: 0 <= r < |xs| ==> StackFits(ls, xs[r], pos[r], Row(slots, r), masks[r])
  }

  /** Run every decoder layer over a batch. Rows do not interact: each row's states and cache are the
      single-row stack's, whatever the other rows hold. */
  method RunDecoderStack(ls: seq<Layer>, embeds: seq<seq<Vec>>, pos: seq<seq<int>>, masks: seq<AttnMask>,
                         cache: ContiguousKvCache)
    returns (h: seq<seq<Vec>>)
    requires BatchFits(ls, embeds, pos, masks, cache.layers)
    modifies cache
    ensures |h| == |embeds| && |cache.layers| == |ls|
    ensures forall l :: 0 <= l < |ls| ==> cache.layers[l].Some? && |cache.layers[l].value| == |embeds|
    ensures forall r :: 0 <= r < |embeds| ==>
      h[r] == StackOut(ls, embeds[r], pos[r], Row(old(cache.layers), r), masks[r])
    ensures forall r :: 0 <= r < |embeds| ==>
      Row(cache.layers, r) == StackKv(ls, embeds[r], pos[r], Row(old(cache.layers), r), masks[r])
  {
    h := embeds;
    ghost var before := cache.layers;
    var i := 0;
    while i < |ls|
      invariant 0 <= i <= |ls|
      invariant BatchProgress(ls, embeds, pos, masks, before, i, h, cache.layers)
    {
      ghost var h0, mid := h, cache.layers;
      LayerFits(ls, embeds, pos, masks, before, i, h, mid);
      h := LayerForward(ls[i], i, h, pos, masks, cache);
      BatchAdvance(ls, embeds, pos, masks, before, i, h0, mid, h, cache.layers);
      i := i + 1;
    }
    BatchDone(ls, embeds, pos, masks, before, h, cache.layers);
  }

  /** After `i` layers the row holds states `h` and cache `done`, and the rest of the stack finishes it. */
  ghost predicate StackProgress(ls: seq<Layer>, xs: seq<Vec>, pos: seq<int>, mask: AttnMask,
                                past: seq<seq<KV>>, i: nat, h: seq<Vec>, done: seq<seq<KV>>)
    requires StackFits(ls, xs, pos, past, mask) && i <= |ls| && |h| == |xs|
  {
    && StackOut(ls, xs, pos, past, mask) == StackOut(ls[i..], h, pos, past[i..], mask)
    && StackKv(ls, xs, pos, past, mask) == done + StackKv(ls[i..], h, pos, past[i..], mask)
  }

  lemma StackAdvance(ls: seq<Layer>, xs: seq<Vec>, pos: seq<int>, mask: AttnMask,
                     past: seq<seq<KV>>, i: nat, h: seq<Vec>, done: seq<seq<KV>>)
    requires StackFits(ls, xs, pos, past, mask) && i < |ls| && |h| == |xs|
    requires StackProgress(ls, xs, pos, mask, past, i, h, done)
    ensures StackProgress(ls, xs, pos, mask, past, i + 1, LayerOut(ls[i], h, pos, past[i], mask),
                          done + [LayerKv(ls[i], h, pos, past[i])])
  {
    hide LayerOut, LayerKv;
    assert ls[i..][1..] == ls[i + 1..] && past[i..][1..] == past[i + 1..];
    var kv, h' := LayerKv(ls[i], h, pos, past[i]), LayerOut(ls[i], h, pos, past[i], mask);
    Assoc(done, [kv], StackKv(ls[i + 1..], h', pos, past[i + 1..], mask));
  }

  /** The loop invariant of `RunDecoderStack`. */
  ghost predicate BatchProgress(ls: seq<Layer>, xs: seq<seq<Vec>>, pos: seq<seq<int>>, masks: seq<AttnMask>,
                                before: Slots, i: nat, h: seq<seq<Vec>>, now: Slots)
    requires BatchFits(ls, xs, pos, masks, before) && i <= |ls|
  {
    && |now| == |ls| && |h| == |xs|
    && (forall l :: i <= l < |ls| ==> now[l] == before[l])
    && (forall l :: 0 <= l < i ==> now[l].Some? && |now[l].value| == |xs|)
    && (forall r :: 0 <= r < |xs| ==> |h[r]| == |xs[r]|)
    && forall r :: 0 <= r < |xs| ==>
         StackProgress(ls, xs[r], pos[r], masks[r], Row(before, r), i, h[r], Row(now, r)[..i])
  }

  lemma LayerFits(ls: seq<Layer>, xs: seq<seq<Vec>>, pos: seq<seq<int>>, masks: seq<AttnMask>,
                  before: Slots, i: nat, h: seq<seq<Vec>>, now: Slots)
    requires BatchFits(ls, xs, pos, masks, before) && i < |ls|
    requires BatchProgress(ls, xs, pos, masks, before, i, h, now)
    ensures now[i].Some? ==> |now[i].value| == |h|
    ensures forall r :: 0 <= r < |h| ==> |pos[r]| == |h[r]|
    ensures forall r :: 0 <= r < |h| ==> MaskFits(masks[r], |h[r]|, |SlotRow(now[i], r)| + |h[r]|)
  {
    forall r | 0 <= r < |h|
      ensures |pos[r]| == |h[r]| && MaskFits(masks[r], |h[r]|, |SlotRow(now[i], r)| + |h[r]|)
    {
      assert StackFits(ls, xs[r], pos[r], Row(before, r), masks[r]);
      assert Row(before, r)[i] == SlotRow(now[i], r);
    }
  }

  lemma BatchDone(ls: seq<Layer>, xs: seq<seq<Vec>>, pos: seq<seq<int>>, masks: seq<AttnMask>,
                  before: Slots, h: seq<seq<Vec>>, now: Slots)
    requires BatchFits(ls, xs, pos, masks, before)
    requires BatchProgress(ls, xs, pos, masks, before, |ls|, h, now)
    ensures forall r :: 0 <= r < |xs| ==> h[r] == StackOut(ls, xs[r], pos[r], Row(before, r), masks[r])
    ensures forall r :: 0 <= r < |xs| ==> Row(now, r) == StackKv(ls, xs[r], pos[r], Row(before, r), masks[r])
  {
    forall r | 0 <= r < |xs|
      ensures h[r] == StackOut(ls, xs[r], pos[r], Row(before, r), masks[r])
      ensures Row(now, r) == StackKv(ls, xs[r], pos[r], Row(before, r), masks[r])
    {
      assert StackProgress(ls, xs[r], pos[r], masks[r], Row(before, r), |ls|, h[r], Row(now, r)[..|ls|]);
      assert Row(now, r)[..|ls|] == Row(now, r);
    }
  }

  lemma BatchAdvance(ls: seq<Layer>, xs: seq<seq<Vec>>, pos: seq<seq<int>>, masks: seq<AttnMask>,
                     before: Slots, i: nat, h: seq<seq<Vec>>, mid: Slots, h': seq<seq<Vec>>, now: Slots)
    requires BatchFits(ls, xs, pos, masks, before) && i < |ls|
    requires BatchProgress(ls, xs, pos, masks, before, i, h, mid)
    requires forall r :: 0 <= r < |xs| ==> MaskFits(masks[r], |h[r]|, |SlotRow(mid[i], r)| + |h[r]|)
    requires LayerStep(ls[i], i, h, pos, masks, mid, h', now)
    ensures BatchProgress(ls, xs, pos, masks, before, i + 1, h', now)
  {
    forall r | 0 <= r < |xs|
      ensures |h'[r]| == |xs[r]|
      ensures StackProgress(ls, xs[r], pos[r], masks[r], Row(before, r), i + 1, h'[r], Row(now, r)[..i + 1])
    {
      RowAdvance(ls, xs[r], pos[r], masks[r], before, i, h[r], mid, h'[r], now, r);
    }
  }

  lemma RowAdvance(ls: seq<Layer>, xs: seq<Vec>, pos: seq<int>, mask: AttnMask,
                   before: Slots, i: nat, h: seq<Vec>, mid: Slots, h': seq<Vec>, now: Slots, r: nat)
    requires i < |ls| == |before| == |mid| == |now| && |h| == |xs|
    requires StackFits(ls, xs, pos, Row(before, r), mask)
    requires StackProgress(ls, xs, pos, mask, Row(before, r), i, h, Row(mid, r)[..i])
    requires mid[i] == before[i] && forall l :: 0 <= l < i ==> now[l] == mid[l]
    requires h' == LayerOut(ls[i], h, pos, SlotRow(before[i], r), mask)
    requires SlotRow(now[i], r) == LayerKv(ls[i], h, pos, SlotRow(before[i], r))
    ensures StackProgress(ls, xs, pos, mask, Row(before, r), i + 1, h', Row(now, r)[..i + 1])
  {
    StackAdvance(ls, xs, pos, mask, Row(before, r), i, h, Row(mid, r)[..i]);
    assert Row(now, r)[..i + 1] == Row(mid, r)[..i] + [LayerKv(ls[i], h, pos, Row(before, r)[i])];
  }
}
