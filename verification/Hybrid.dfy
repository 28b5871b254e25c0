/** src/models/qwen35.rs with src/primitives/gated_delta.rs: the hybrid decoder. Most layers carry a short-conv tail and
    a fixed-size recurrent state, every `interval`-th one a growing KV slot. */
module Hybrid {
  import opened Prelude
  import opened Attention
  import opened Llama

  // ----- the linear layer -----

  /** One gated delta-net layer. `conv` maps a window of `kernel` mixed rows to the convolved row, `step` is one step of
      the delta rule on the recurrent state, reading the convolved row and the token's own gates. */
  datatype DeltaNet = DeltaNet(
    mix: Vec -> Vec,
    gates: Vec -> Vec,
    kernel: nat,
    conv: seq<Vec> -> Vec,
    step: (Vec, Vec, Vec) -> (Vec, Vec),
    output: (Vec, Vec) -> Vec,
    zeroRow: Vec,
    zeroState: Vec)

  datatype DeltaNetCache = DeltaNetCache(convState: Option<seq<Vec>>, ssmState: Option<Vec>, offset: nat)

  const EmptyDelta: DeltaNetCache := DeltaNetCache(None, None, 0)

  predicate DeltaShaped(d: DeltaNet, c: DeltaNetCache)
  {
    d.kernel >= 1 && (c.convState.Some? ==> |c.convState.value| == d.kernel - 1)
  }

  function Tail(d: DeltaNet, c: DeltaNetCache): (tail: seq<Vec>)
    requires DeltaShaped(d, c)
    ensures |tail| == d.kernel - 1
  {
    if c.convState.Some? then c.convState.value else seq(d.kernel - 1, _ => d.zeroRow)
  }

  function State(d: DeltaNet, c: DeltaNetCache): Vec
  {
    if c.ssmState.Some? then c.ssmState.value else d.zeroState
  }

  function MapRows(f: Vec -> Vec, xs: seq<Vec>): (out: seq<Vec>)
    ensures |out| == |xs|
    ensures forall i :: 0 <= i < |xs| ==> out[i] == f(xs[i])
  {
    seq(|xs|, i requires 0 <= i < |xs| => f(xs[i]))
  }

  /** The causal depthwise convolution, left-seeded by the previous rows. */
  function Conv(d: DeltaNet, tail: seq<Vec>, mixed: seq<Vec>): (out: seq<Vec>)
    requires d.kernel >= 1 && |tail| == d.kernel - 1
    ensures |out| == |mixed|
    ensures forall i :: 0 <= i < |mixed| ==> out[i] == d.conv((tail + mixed)[i..i + d.kernel])
  {
    seq(|mixed|, i requires 0 <= i < |mixed| => d.conv((tail + mixed)[i..i + d.kernel]))
  }

  /** The last `kernel - 1` rows seen. */
  function NewTail(d: DeltaNet, tail: seq<Vec>, mixed: seq<Vec>): (out: seq<Vec>)
    requires d.kernel >= 1 && |tail| == d.kernel - 1
    ensures |out| == d.kernel - 1
  {
    (tail + mixed)[|mixed|..]
  }

  /** The recurrence as a left fold over the tokens: outputs and final state. */
  function Fold(d: DeltaNet, rows: seq<Vec>, gates: seq<Vec>, state: Vec): (r: (seq<Vec>, Vec))
    requires |gates| == |rows|
    ensures |r.0| == |rows|
  {
    if rows == [] then ([], state)
    else
      var (y, next) := d.step(rows[0], gates[0], state);
      var (ys, last) := Fold(d, rows[1..], gates[1..], next);
      ([y] + ys, last)
  }

  lemma {:induction false} FoldSplit(d: DeltaNet, a: seq<Vec>, b: seq<Vec>, ga: seq<Vec>, gb: seq<Vec>, state: Vec)
    requires |ga| == |a| && |gb| == |b|
    ensures var (ys, mid) := Fold(d, a, ga, state);
      var (zs, last) := Fold(d, b, gb, mid);
      Fold(d, a + b, ga + gb, state) == (ys + zs, last)
    decreases |a|
  {
    if a == [] {
      assert a + b == b && ga + gb == gb;
      assert [] + Fold(d, b, gb, state).0 == Fold(d, b, gb, state).0;
    } else {
      var (y, next) := d.step(a[0], ga[0], state);
      FoldSplit(d, a[1..], b, ga[1..], gb, next);
      assert (a + b)[1..] == a[1..] + b && (ga + gb)[1..] == ga[1..] + gb;
      var (ys, mid) := Fold(d, a[1..], ga[1..], next);
      var (zs, _) := Fold(d, b, gb, mid);
      assert [y] + (ys + zs) == [y] + ys + zs;
    }
  }

  /** `gated_delta_recurrence`: step by step over the chunk. */
  method Recurrence(d: DeltaNet, rows: seq<Vec>, gates: seq<Vec>, state0: Vec) returns (ys: seq<Vec>, state: Vec)
    requires |gates| == |rows|
    ensures (ys, state) == Fold(d, rows, gates, state0)
  {
    ys, state := [], state0;
    var t := 0;
    assert rows[0..] == rows && gates[0..] == gates;
    assert [] + Fold(d, rows, gates, state0).0 == Fold(d, rows, gates, state0).0;
    while t < |rows|
      invariant 0 <= t <= |rows|
      invariant Fold(d, rows, gates, state0)
             == (ys + Fold(d, rows[t..], gates[t..], state).0, Fold(d, rows[t..], gates[t..], state).1)
    {
      assert rows[t..][1..] == rows[t + 1..] && gates[t..][1..] == gates[t + 1..];
      var (y, next) := d.step(rows[t], gates[t], state);
      assert ys + ([y] + Fold(d, rows[t + 1..], gates[t + 1..], next).0)
          == (ys + [y]) + Fold(d, rows[t + 1..], gates[t + 1..], next).0;
      ys, state := ys + [y], next;
      t := t + 1;
    }
    assert rows[t..] == [] && ys + [] == ys;
  }

  function Combine(d: DeltaNet, ys: seq<Vec>, xs: seq<Vec>): (out: seq<Vec>)
    requires |ys| == |xs|
    ensures |out| == |xs|
    ensures forall i :: 0 <= i < |xs| ==> out[i] == d.output(ys[i], xs[i])
  {
    seq(|xs|, i requires 0 <= i < |xs| && |ys| == |xs| => d.output(ys[i], xs[i]))
  }

  /** The linear layer's forward over a chunk: outputs and the cache it leaves. */
  function DeltaForward(d: DeltaNet, xs: seq<Vec>, c: DeltaNetCache): (r: (seq<Vec>, DeltaNetCache))
    requires DeltaShaped(d, c)
    ensures |r.0| == |xs| && DeltaShaped(d, r.1)
  {
    var mixed := MapRows(d.mix, xs);
    var (ys, state) := Fold(d, Conv(d, Tail(d, c), mixed), MapRows(d.gates, xs), State(d, c));
    (Combine(d, ys, xs), DeltaNetCache(Some(NewTail(d, Tail(d, c), mixed)), Some(state), c.offset + |xs|))
  }

  lemma ConvSplit(d: DeltaNet, tail: seq<Vec>, a: seq<Vec>, b: seq<Vec>)
    requires d.kernel >= 1 && |tail| == d.kernel - 1
    ensures Conv(d, tail, a + b) == Conv(d, tail, a) + Conv(d, NewTail(d, tail, a), b)
    ensures NewTail(d, tail, a + b) == NewTail(d, NewTail(d, tail, a), b)
  {
    var all := tail + (a + b);
    Assoc(tail, a, b);
    assert NewTail(d, tail, a) + b == all[|a|..];
    var whole, parts := Conv(d, tail, a + b), Conv(d, tail, a) + Conv(d, NewTail(d, tail, a), b);
    forall i | 0 <= i < |a| + |b| ensures whole[i] == parts[i] {
      if i < |a| {
        assert all[i..i + d.kernel] == (tail + a)[i..i + d.kernel];
      } else {
        assert all[|a|..][i - |a|..i - |a| + d.kernel] == all[i..i + d.kernel];
      }
    }
  }

  /** Chunking is invisible to a linear layer: conv tail and recurrent state carry everything over. */
  lemma DeltaSplit(d: DeltaNet, a: seq<Vec>, b: seq<Vec>, c: DeltaNetCache)
    requires DeltaShaped(d, c) && a != []
    ensures var (ya, mid) := DeltaForward(d, a, c);
      var (yb, last) := DeltaForward(d, b, mid);
      DeltaForward(d, a + b, c) == (ya + yb, last)
  {
    hide Fold, Conv, NewTail;
    var tail := Tail(d, c);
    var ma, mb, ga, gb := MapRows(d.mix, a), MapRows(d.mix, b), MapRows(d.gates, a), MapRows(d.gates, b);
    assert MapRows(d.mix, a + b) == ma + mb;
    assert MapRows(d.gates, a + b) == ga + gb;
    ConvSplit(d, tail, ma, mb);
    FoldSplit(d, Conv(d, tail, ma), Conv(d, NewTail(d, tail, ma), mb), ga, gb, State(d, c));
    var mid := DeltaForward(d, a, c).1;
    assert Tail(d, mid) == NewTail(d, tail, ma);
    assert State(d, mid) == Fold(d, Conv(d, tail, ma), ga, State(d, c)).1;
    CombineSplit(d, Fold(d, Conv(d, tail, ma), ga, State(d, c)).0,
                 Fold(d, Conv(d, Tail(d, mid), mb), gb, State(d, mid)).0, a, b);
  }

  lemma CombineSplit(d: DeltaNet, ya: seq<Vec>, yb: seq<Vec>, a: seq<Vec>, b: seq<Vec>)
    requires |ya| == |a| && |yb| == |b|
    ensures Combine(d, ya + yb, a + b) == Combine(d, ya, a) + Combine(d, yb, b)
  {
  }

  // ----- the layer stack -----

  datatype HybridMixer =
    | Delta(net: DeltaNet)
    | Attn(project: (Vec, int) -> (Vec, KV), kernel: Kernel, heads: nat, headDim: nat, gate: (Vec, Vec) -> Vec)

  datatype HybridLayer = HybridLayer(inputNorm: Vec -> Vec, mixer: HybridMixer, ffn: (Vec, Vec) -> Vec)

  /** A per-layer cache slot. */
  datatype LayerCache = DeltaSlot(state: DeltaNetCache) | AttnSlot(kv: Option<seq<KV>>)

  /** Layer `i` is linear unless it is the last of its interval. */
  predicate IsLinear(interval: nat, i: nat)
    requires interval >= 1
  {
    (i + 1) % interval != 0
  }

  /** The schedule the loader and `new_cache` both follow. */
  predicate Scheduled(interval: nat, layers: seq<HybridLayer>)
    requires interval >= 1
  {
    forall i :: 0 <= i < |layers| ==>
      (layers[i].mixer.Delta? <==> IsLinear(interval, i))
      && (layers[i].mixer.Delta? ==> layers[i].mixer.net.kernel >= 1)
  }

  predicate SlotFits(l: HybridLayer, slot: LayerCache)
  {
    match (l.mixer, slot)
    case (Delta(net), DeltaSlot(c)) => DeltaShaped(net, c)
    case (Attn(_, _, _, _, _), AttnSlot(_)) => true
    case _ => false
  }

  predicate SlotsFit(layers: seq<HybridLayer>, slots: seq<LayerCache>)
  {
    |slots| == |layers| && forall i :: 0 <= i < |layers| ==> SlotFits(layers[i], slots[i])
  }

  function Cached(kv: Option<seq<KV>>): seq<KV>
  {
    if kv.Some? then kv.value else []
  }

  function AttnQueries(mixer: HybridMixer, xs: seq<Vec>, pos: seq<int>): (out: seq<Vec>)
    requires mixer.Attn? && |pos| == |xs|
    ensures |out| == |xs| && forall i :: 0 <= i < |xs| ==> out[i] == mixer.project(xs[i], pos[i]).0
  {
    seq(|xs|, i requires 0 <= i < |xs| => mixer.project(xs[i], pos[i]).0)
  }

  function AttnStep(mixer: HybridMixer, xs: seq<Vec>, pos: seq<int>): (out: seq<KV>)
    requires mixer.Attn? && |pos| == |xs|
    ensures |out| == |xs| && forall i :: 0 <= i < |xs| ==> out[i] == mixer.project(xs[i], pos[i]).1
  {
    seq(|xs|, i requires 0 <= i < |xs| => mixer.project(xs[i], pos[i]).1)
  }

  /** The output gate, token by token. */
  function Gated(mixer: HybridMixer, attended: seq<Vec>, xs: seq<Vec>): (out: seq<Vec>)
    requires mixer.Attn? && |attended| == |xs|
    ensures |out| == |xs| && forall i :: 0 <= i < |xs| ==> out[i] == mixer.gate(attended[i], xs[i])
  {
    seq(|xs|, i requires 0 <= i < |xs| && |attended| == |xs| => mixer.gate(attended[i], xs[i]))
  }

  /** Causal attention over the slot and this step, gated, and the slot after the step. */
  function AttnForward(mixer: HybridMixer, xs: seq<Vec>, pos: seq<int>, past: seq<KV>): (r: (seq<Vec>, seq<KV>))
    requires mixer.Attn? && |pos| == |xs|
    ensures |r.0| == |xs| && |r.1| == |past| + |xs|
  {
    var kvs := past + AttnStep(mixer, xs, pos);
    (Gated(mixer, Sdpa(mixer.kernel, AttnQueries(mixer, xs, pos), kvs, Causal), xs), kvs)
  }

  /** Token `i` attends to the cached positions, the tokens before it and itself. */
  lemma AttnSees(mixer: HybridMixer, xs: seq<Vec>, pos: seq<int>, past: seq<KV>, i: nat)
    requires mixer.Attn? && |pos| == |xs| && i < |xs|
    ensures var (ys, kvs) := AttnForward(mixer, xs, pos, past);
      ys[i] == mixer.gate(mixer.kernel(mixer.project(xs[i], pos[i]).0, kvs[..|past| + i + 1]), xs[i])
  {
    var kvs := past + AttnStep(mixer, xs, pos);
    assert VisibleTo(Causal, kvs, i, |xs|) == kvs[..|past| + i + 1];
  }

  lemma AttnSplit(mixer: HybridMixer, a: seq<Vec>, b: seq<Vec>, pa: seq<int>, pb: seq<int>, past: seq<KV>)
    requires mixer.Attn? && |pa| == |a| && |pb| == |b|
    ensures var (ya, mid) := AttnForward(mixer, a, pa, past);
      var (yb, last) := AttnForward(mixer, b, pb, mid);
      AttnForward(mixer, a + b, pa + pb, past) == (ya + yb, last)
  {
    var (ya, mid) := AttnForward(mixer, a, pa, past);
    var (yb, last) := AttnForward(mixer, b, pb, mid);
    var (y, all) := AttnForward(mixer, a + b, pa + pb, past);
    assert all == last;
    forall i | 0 <= i < |a| + |b| ensures y[i] == (ya + yb)[i] {
      AttnSees(mixer, a + b, pa + pb, past, i);
      if i < |a| {
        AttnSees(mixer, a, pa, past, i);
        assert all[..|past| + i + 1] == mid[..|past| + i + 1];
      } else {
        AttnSees(mixer, b, pb, mid, i - |a|);
        assert all[..|past| + i + 1] == last[..|mid| + (i - |a|) + 1];
      }
    }
    assert y == ya + yb;
  }

  function Ffn(l: HybridLayer, xs: seq<Vec>, mixed: seq<Vec>): (out: seq<Vec>)
    requires |mixed| == |xs|
    ensures |out| == |xs|
    ensures forall i :: 0 <= i < |xs| ==> out[i] == l.ffn(xs[i], mixed[i])
  {
    seq(|xs|, i requires 0 <= i < |xs| && |mixed| == |xs| => l.ffn(xs[i], mixed[i]))
  }

  lemma FfnSplit(l: HybridLayer, a: seq<Vec>, b: seq<Vec>, ma: seq<Vec>, mb: seq<Vec>)
    requires |ma| == |a| && |mb| == |b|
    ensures Ffn(l, a + b, ma + mb) == Ffn(l, a, ma) + Ffn(l, b, mb)
  {
  }

  /** One layer: pre-norm, mixer over its own slot, residual and feed-forward. */
  function LayerStep(l: HybridLayer, xs: seq<Vec>, pos: seq<int>, slot: LayerCache): (r: (seq<Vec>, LayerCache))
    requires |pos| == |xs| && SlotFits(l, slot)
    ensures |r.0| == |xs| && SlotFits(l, r.1)
  {
    var normed := MapRows(l.inputNorm, xs);
    if l.mixer.Delta? then
      var (ys, c) := DeltaForward(l.mixer.net, normed, slot.state);
      (Ffn(l, xs, ys), DeltaSlot(c))
    else
      var (ys, kv) := AttnForward(l.mixer, normed, pos, Cached(slot.kv));
      (Ffn(l, xs, ys), AttnSlot(Some(kv)))
  }

  lemma LayerStepSplit(l: HybridLayer, a: seq<Vec>, b: seq<Vec>, pa: seq<int>, pb: seq<int>, slot: LayerCache)
    requires |pa| == |a| && |pb| == |b| && SlotFits(l, slot) && a != []
    ensures var (ya, mid) := LayerStep(l, a, pa, slot);
      var (yb, last) := LayerStep(l, b, pb, mid);
      LayerStep(l, a + b, pa + pb, slot) == (ya + yb, last)
  {
    hide DeltaForward, AttnForward, Ffn;
    var na, nb := MapRows(l.inputNorm, a), MapRows(l.inputNorm, b);
    assert MapRows(l.inputNorm, a + b) == na + nb;
    if l.mixer.Delta? {
      DeltaSplit(l.mixer.net, na, nb, slot.state);
      var (ma, mid) := DeltaForward(l.mixer.net, na, slot.state);
      FfnSplit(l, a, b, ma, DeltaForward(l.mixer.net, nb, mid).0);
    } else {
      AttnSplit(l.mixer, na, nb, pa, pb, Cached(slot.kv));
      var (ma, mid) := AttnForward(l.mixer, na, pa, Cached(slot.kv));
      FfnSplit(l, a, b, ma, AttnForward(l.mixer, nb, pb, mid).0);
    }
  }

  /** The whole stack: final hidden states and the cache it leaves. */
  function Hidden(layers: seq<HybridLayer>, xs: seq<Vec>, pos: seq<int>, slots: seq<LayerCache>)
    : (r: (seq<Vec>, seq<LayerCache>))
    requires |pos| == |xs| && SlotsFit(layers, slots)
    ensures |r.0| == |xs| && SlotsFit(layers, r.1)
    decreases |layers|
  {
    if layers == [] then (xs, [])
    else
      var (ys, slot) := LayerStep(layers[0], xs, pos, slots[0]);
      var (out, rest) := Hidden(layers[1..], ys, pos, slots[1..]);
      (out, [slot] + rest)
  }

  /** Incremental equals full for the hybrid schedule too: feeding `a` then `b` gives the same states and leaves the
      same conv tails, recurrent states and keys as feeding `a + b` at once. */
  lemma {:induction false} HybridIncrementalIsFull(layers: seq<HybridLayer>, a: seq<Vec>, b: seq<Vec>, pa: seq<int>,
      pb: seq<int>, slots: seq<LayerCache>)
    requires |pa| == |a| && |pb| == |b| && SlotsFit(layers, slots) && a != []
    ensures var (ya, mid) := Hidden(layers, a, pa, slots);
      var (yb, last) := Hidden(layers, b, pb, mid);
      Hidden(layers, a + b, pa + pb, slots) == (ya + yb, last)
    decreases |layers|
  {
    if layers != [] {
      hide LayerStep;
      LayerStepSplit(layers[0], a, b, pa, pb, slots[0]);
      var (ya, sa) := LayerStep(layers[0], a, pa, slots[0]);
      var (yb, sb) := LayerStep(layers[0], b, pb, sa);
      HybridIncrementalIsFull(layers[1..], ya, yb, pa, pb, slots[1..]);
      var mid := Hidden(layers, a, pa, slots).1;
      assert mid[1..] == Hidden(layers[1..], ya, pa, slots[1..]).1;
    }
  }

  // ----- a stack of attention layers alone is the plain decoder -----

  /** The plain decoder layer that computes what an attention layer of the hybrid stack does. */
  function AsPlain(l: HybridLayer): Layer
    requires l.mixer.Attn?
  {
    Layer(l.inputNorm,
          (x, p) => Projected(l.mixer.project(x, p).0, l.mixer.project(x, p).1),
          l.mixer.kernel, l.mixer.heads, l.mixer.headDim, a => a,
          (x, a) => l.ffn(x, l.mixer.gate(a, l.inputNorm(x))))
  }

  function PlainLayers(layers: seq<HybridLayer>): (out: seq<Layer>)
    requires forall i :: 0 <= i < |layers| ==> layers[i].mixer.Attn?
    ensures |out| == |layers| && forall i :: 0 <= i < |layers| ==> out[i] == AsPlain(layers[i])
  {
    seq(|layers|, i requires 0 <= i < |layers| => AsPlain(layers[i]))
  }

  function PlainView(slots: seq<LayerCache>): (out: seq<seq<KV>>)
    requires forall i :: 0 <= i < |slots| ==> slots[i].AttnSlot?
    ensures |out| == |slots| && forall i :: 0 <= i < |slots| ==> out[i] == Cached(slots[i].kv)
  {
    seq(|slots|, i requires 0 <= i < |slots| => Cached(slots[i].kv))
  }

  /** One attention layer of the hybrid stack is the plain decoder layer over the same rows. */
  lemma AttnLayerIsPlain(l: HybridLayer, xs: seq<Vec>, pos: seq<int>, slot: LayerCache)
    requires |pos| == |xs| && l.mixer.Attn? && slot.AttnSlot?
    ensures var (ys, next) := LayerStep(l, xs, pos, slot);
      && ys == LayerOut(AsPlain(l), xs, pos, Cached(slot.kv), Causal)
      && next == AttnSlot(Some(LayerKv(AsPlain(l), xs, pos, Cached(slot.kv))))
  {
    var normed, ps := MapRows(l.inputNorm, xs), Project(AsPlain(l), xs, pos);
    assert AttnQueries(l.mixer, normed, pos) == Queries(ps);
    assert AttnStep(l.mixer, normed, pos) == KeyValues(ps);
    hide Sdpa;
    var attended := Sdpa(l.mixer.kernel, Queries(ps), Cached(slot.kv) + KeyValues(ps), Causal);
    assert Ffn(l, xs, Gated(l.mixer, attended, normed)) == Residual(AsPlain(l), xs, attended);
  }

  lemma AttnSlots(layers: seq<HybridLayer>, slots: seq<LayerCache>)
    requires SlotsFit(layers, slots) && forall i :: 0 <= i < |layers| ==> layers[i].mixer.Attn?
    ensures forall i :: 0 <= i < |slots| ==> slots[i].AttnSlot?
  {
    forall i | 0 <= i < |slots| ensures slots[i].AttnSlot? {
      assert SlotFits(layers[i], slots[i]);
    }
  }

  lemma PlainTails(layers: seq<HybridLayer>, slots: seq<LayerCache>)
    requires |layers| == |slots| > 0 && forall i :: 0 <= i < |layers| ==> layers[i].mixer.Attn?
    requires forall i :: 0 <= i < |slots| ==> slots[i].AttnSlot?
    ensures PlainLayers(layers)[1..] == PlainLayers(layers[1..])
    ensures PlainView(slots)[1..] == PlainView(slots[1..])
    ensures PlainView(slots) == [Cached(slots[0].kv)] + PlainView(slots[1..])
  {
    hide AsPlain, Cached;
  }

  /** With an interval of one every layer is a full-attention layer, and the stack is the plain decoder's: states and
      keys. */
  lemma {:induction false} AllAttentionIsPlain(layers: seq<HybridLayer>, xs: seq<Vec>, pos: seq<int>,
                                               slots: seq<LayerCache>)
    requires |pos| == |xs| && SlotsFit(layers, slots) && forall i :: 0 <= i < |layers| ==> layers[i].mixer.Attn?
    ensures forall i :: 0 <= i < |slots| ==> slots[i].AttnSlot? && Hidden(layers, xs, pos, slots).1[i].AttnSlot?
    ensures StackFits(PlainLayers(layers), xs, pos, PlainView(slots), Causal)
    ensures Hidden(layers, xs, pos, slots).0 == StackOut(PlainLayers(layers), xs, pos, PlainView(slots), Causal)
    ensures PlainView(Hidden(layers, xs, pos, slots).1)
         == StackKv(PlainLayers(layers), xs, pos, PlainView(slots), Causal)
    decreases |layers|
  {
    hide LayerStep, LayerOut, LayerKv, AsPlain;
    AttnSlots(layers, slots);
    AttnSlots(layers, Hidden(layers, xs, pos, slots).1);
    if layers != [] {
      PlainTails(layers, slots);
      AttnLayerIsPlain(layers[0], xs, pos, slots[0]);
      var (ys, slot) := LayerStep(layers[0], xs, pos, slots[0]);
      AllAttentionIsPlain(layers[1..], ys, pos, slots[1..]);
      var rest := Hidden(layers[1..], ys, pos, slots[1..]).1;
      assert ([slot] + rest)[1..] == rest;
      PlainTails(layers, [slot] + rest);
    }
  }

  // ----- the mutable cache -----

  class Qwen35Cache {
    var layers: seq<LayerCache>

    /** `new_cache`: one slot per layer, by the schedule. */
    constructor (interval: nat, numLayers: nat)
      requires interval >= 1
      ensures layers == FreshSlots(interval, numLayers)
    {
      layers := FreshSlots(interval, numLayers);
    }

    /** Positions cached, read from the first full-attention layer. */
    function Offset(): nat
      reads this
    {
      FirstAttn(layers)
    }
  }

  function FreshSlots(interval: nat, numLayers: nat): (out: seq<LayerCache>)
    requires interval >= 1
    ensures |out| == numLayers
    ensures forall i :: 0 <= i < numLayers ==> out[i] == (if IsLinear(interval, i) then DeltaSlot(EmptyDelta)
        else AttnSlot(None))
  {
    seq(numLayers, i requires 0 <= i < numLayers => if IsLinear(interval, i) then DeltaSlot(EmptyDelta)
      else AttnSlot(None))
  }

  function FirstAttn(slots: seq<LayerCache>): nat
  {
    if slots == [] then 0
    else if slots[0].AttnSlot? then |Cached(slots[0].kv)|
    else FirstAttn(slots[1..])
  }

  /** `DecoderLayer::forward`: a slot of the wrong kind is an error, and leaves the slot alone. */
  method LayerForward(l: HybridLayer, xs: seq<Vec>, pos: seq<int>, slot: LayerCache)
    returns (res: Result<(seq<Vec>, LayerCache), Error>)
    requires |pos| == |xs|
    requires l.mixer.Delta? && slot.DeltaSlot? ==> DeltaShaped(l.mixer.net, slot.state)
    ensures res.Ok? <==> SlotFits(l, slot)
    ensures res.Ok? ==> res.value == LayerStep(l, xs, pos, slot)
  {
    hide Fold, Conv, NewTail, Combine, Sdpa;
    var normed := MapRows(l.inputNorm, xs);
    match (l.mixer, slot) {
      case (Delta(net), DeltaSlot(c)) =>
        var mixed := MapRows(net.mix, normed);
        var tail := Tail(net, c);
        var ys, state := Recurrence(net, Conv(net, tail, mixed), MapRows(net.gates, normed), State(net, c));
        var c' := DeltaNetCache(Some(NewTail(net, tail, mixed)), Some(state), c.offset + |xs|);
        res := Ok((Ffn(l, xs, Combine(net, ys, normed)), DeltaSlot(c')));
      case (Attn(_, kernel, heads, headDim, _), AttnSlot(kv)) =>
        var kvs := Cached(kv) + AttnStep(l.mixer, normed, pos);
        var attended := SdpaDispatch(kernel, heads, headDim, AttnQueries(l.mixer, normed, pos), kvs, Causal);
        res := Ok((Ffn(l, xs, Gated(l.mixer, attended, normed)), AttnSlot(Some(kvs))));
      case _ =>
        res := Err(Msg("qwen3_5: cache/mixer type mismatch"));
    }
  }

  /** `hidden_from_embeds`: run the stack over the cache. */
  method HiddenFromEmbeds(layers: seq<HybridLayer>, embeds: seq<Vec>, pos: seq<int>, cache: Qwen35Cache)
    returns (h: seq<Vec>)
    requires |pos| == |embeds| && SlotsFit(layers, cache.layers)
    modifies cache
    ensures (h, cache.layers) == Hidden(layers, embeds, pos, old(cache.layers))
  {
    hide LayerStep, SlotFits, Hidden;
    h := embeds;
    ghost var before := cache.layers;
    var i := 0;
    HiddenStart(layers, embeds, pos, before);
    while i < |layers|
      invariant 0 <= i <= |layers| == |cache.layers| == |before|
      invariant cache.layers[i..] == before[i..]
      invariant HiddenProgress(layers, embeds, pos, before, i, h, cache.layers[..i])
    {
      assert cache.layers[i] == cache.layers[i..][0] == before[i];
      FitsKind(layers[i], before[i]);
      var res := LayerForward(layers[i], h, pos, cache.layers[i]);
      HiddenAdvance(layers, embeds, pos, before, i, h, cache.layers[..i]);
      var (ys, slot) := res.value;
      ghost var prior := cache.layers;
      cache.layers := cache.layers[i := slot];
      assert cache.layers[..i + 1] == prior[..i] + [slot] && cache.layers[i + 1..] == prior[i + 1..];
      h := ys;
      i := i + 1;
    }
    HiddenDone(layers, embeds, pos, before, h, cache.layers);
    assert cache.layers[..i] == cache.layers;
  }

  /** After `i` layers the states are `h`, the slots `done`, and the rest of the stack finishes the forward. */
  ghost predicate HiddenProgress(layers: seq<HybridLayer>, xs: seq<Vec>, pos: seq<int>, before: seq<LayerCache>,
                                 i: nat, h: seq<Vec>, done: seq<LayerCache>)
    requires |pos| == |xs| && SlotsFit(layers, before) && i <= |layers|
  {
    && |h| == |xs| && SlotsFit(layers[i..], before[i..])
    && var rest := Hidden(layers[i..], h, pos, before[i..]);
    && Hidden(layers, xs, pos, before) == (rest.0, done + rest.1)
  }

  lemma HiddenStart(layers: seq<HybridLayer>, xs: seq<Vec>, pos: seq<int>, before: seq<LayerCache>)
    requires |pos| == |xs| && SlotsFit(layers, before)
    ensures HiddenProgress(layers, xs, pos, before, 0, xs, [])
  {
    assert layers[0..] == layers && before[0..] == before;
    assert [] + Hidden(layers, xs, pos, before).1 == Hidden(layers, xs, pos, before).1;
  }

  lemma HiddenAdvance(layers: seq<HybridLayer>, xs: seq<Vec>, pos: seq<int>, before: seq<LayerCache>,
                      i: nat, h: seq<Vec>, done: seq<LayerCache>)
    requires |pos| == |xs| && SlotsFit(layers, before) && i < |layers|
    requires HiddenProgress(layers, xs, pos, before, i, h, done)
    ensures SlotFits(layers[i], before[i])
    ensures var (ys, slot) := LayerStep(layers[i], h, pos, before[i]);
      HiddenProgress(layers, xs, pos, before, i + 1, ys, done + [slot])
  {
    hide LayerStep, SlotFits;
    assert layers[i..][1..] == layers[i + 1..] && before[i..][1..] == before[i + 1..];
    var (ys, slot) := LayerStep(layers[i], h, pos, before[i]);
    var rest := Hidden(layers[i + 1..], ys, pos, before[i + 1..]);
    assert done + ([slot] + rest.1) == done + [slot] + rest.1;
  }

  lemma HiddenDone(layers: seq<HybridLayer>, xs: seq<Vec>, pos: seq<int>, before: seq<LayerCache>,
                   h: seq<Vec>, done: seq<LayerCache>)
    requires |pos| == |xs| && SlotsFit(layers, before) && |done| == |layers|
    requires HiddenProgress(layers, xs, pos, before, |layers|, h, done[..|layers|])
    ensures Hidden(layers, xs, pos, before) == (h, done)
  {
    assert done[..|layers|] + [] == done;
  }

  lemma FitsKind(l: HybridLayer, slot: LayerCache)
    requires SlotFits(l, slot)
    ensures l.mixer.Delta? && slot.DeltaSlot? ==> DeltaShaped(l.mixer.net, slot.state)
  {
  }

  // ----- the schedule -----

  /** The fresh cache fits every scheduled stack, so no mismatch error can occur on a scheduled model. */
  lemma FreshSlotsFit(interval: nat, layers: seq<HybridLayer>)
    requires interval >= 1 && Scheduled(interval, layers)
    ensures SlotsFit(layers, FreshSlots(interval, |layers|))
  {
  }

  /** Slots advanced in lockstep to `n` positions. */
  predicate Lockstep(slots: seq<LayerCache>, n: nat)
  {
    forall i :: 0 <= i < |slots| ==>
      (slots[i].DeltaSlot? ==> slots[i].state.offset == n) && (slots[i].AttnSlot? ==> |Cached(slots[i].kv)| == n)
  }

  lemma {:induction false} HiddenLockstep(layers: seq<HybridLayer>, xs: seq<Vec>, pos: seq<int>,
      slots: seq<LayerCache>, n: nat)
    requires |pos| == |xs| && SlotsFit(layers, slots) && Lockstep(slots, n)
    ensures Lockstep(Hidden(layers, xs, pos, slots).1, n + |xs|)
    ensures forall i :: 0 <= i < |layers| ==> (Hidden(layers, xs, pos, slots).1[i].AttnSlot? <==> layers[i].mixer.Attn?)
    decreases |layers|
  {
    if layers != [] {
      var (ys, slot) := LayerStep(layers[0], xs, pos, slots[0]);
      HiddenLockstep(layers[1..], ys, pos, slots[1..], n);
    }
  }

  lemma FreshLockstep(interval: nat, n: nat)
    requires interval >= 1
    ensures Lockstep(FreshSlots(interval, n), 0)
  {
  }

  lemma {:induction false} FirstAttnIs(slots: seq<LayerCache>, n: nat)
    requires Lockstep(slots, n)
    ensures FirstAttn(slots) == (if exists i :: 0 <= i < |slots| && slots[i].AttnSlot? then n else 0)
  {
    if slots != [] && !slots[0].AttnSlot? {
      FirstAttnIs(slots[1..], n);
      assert forall i :: 0 < i < |slots| ==> slots[i] == slots[1..][i - 1];
    }
  }

  /** `offset()` after feeding `xs` to a fresh cache is the number of tokens fed if and only if the model is deep enough
      to have a full-attention layer; a shallower one would report 0 for ever. */
  lemma OffsetCountsTokensIffAttention(interval: nat, layers: seq<HybridLayer>, xs: seq<Vec>, pos: seq<int>)
    requires interval >= 1 && Scheduled(interval, layers) && |pos| == |xs| && xs != []
    ensures SlotsFit(layers, FreshSlots(interval, |layers|))
    ensures FirstAttn(Hidden(layers, xs, pos, FreshSlots(interval, |layers|)).1) == |xs| <==> interval <= |layers|
  {
    hide Hidden, LayerStep, Lockstep, FirstAttn, SlotFits, Scheduled;
    FreshSlotsFit(interval, layers);
    FreshLockstep(interval, |layers|);
    var slots := FreshSlots(interval, |layers|);
    HiddenLockstep(layers, xs, pos, slots, 0);
    var after := Hidden(layers, xs, pos, slots).1;
    FirstAttnIs(after, |xs|);
    SomeAttnSlot(interval, layers, after);
  }

  /** Slots of the layers' kinds include an attention slot exactly when the stack is deep enough. */
  lemma SomeAttnSlot(interval: nat, layers: seq<HybridLayer>, slots: seq<LayerCache>)
    requires interval >= 1 && Scheduled(interval, layers) && |slots| == |layers|
    requires forall i :: 0 <= i < |layers| ==> (slots[i].AttnSlot? <==> layers[i].mixer.Attn?)
    ensures (exists i :: 0 <= i < |slots| && slots[i].AttnSlot?) <==> interval <= |layers|
  {
    hide IsLinear;
    DeepEnough(interval, |layers|);
    forall i | 0 <= i < |layers| ensures slots[i].AttnSlot? <==> !IsLinear(interval, i) {
      assert layers[i].mixer.Delta? <==> IsLinear(interval, i);
    }
  }

  lemma DeepEnough(interval: nat, n: nat)
    requires interval >= 1
    ensures (exists i :: 0 <= i < n && !IsLinear(interval, i)) <==> interval <= n
  {
    if interval <= n {
      assert !IsLinear(interval, interval - 1);
    } else {
      forall i: nat | i < n ensures IsLinear(interval, i) {
        assert (i + 1) % interval == i + 1;
      }
    }
  }
}
