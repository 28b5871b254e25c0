/** src/models/llama.rs, the decoder's entry points: one forward step over token ids and a cache. */
module CausalLm {
  import opened Prelude
  import opened Attention
  import opened KvCache
  import opened Llama

  /** The cache carries one sequence: every filled slot has a single batch row. */
  predicate Single(slots: Slots)
  {
    forall l :: 0 <= l < |slots| && slots[l].Some? ==> |slots[l].value| == 1
  }

  /** A cache this model can step a single sequence over: its layers advanced in lockstep to `n`. */
  predicate Ready(m: Model, slots: Slots, n: nat)
  {
    && ValidModel(m) && |slots| == |m.layers| && Single(slots)
    && forall l :: 0 <= l < |slots| ==> |Row(slots, 0)[l]| == n
  }

  /** The cache holds exactly the keys and values of `toks`. */
  ghost predicate Holds(m: Model, slots: Slots, toks: seq<int>)
  {
    ValidModel(m) && |slots| == |m.layers| && Single(slots) && Row(slots, 0) == CacheOf(m, toks)
  }

  /** The logits one cached step reports for its `i`-th token. */
  function StepLogits(m: Model, ids: seq<int>, off: int, view: seq<seq<KV>>, i: nat): Vec
    requires |view| == |m.layers| && i < |ids|
  {
    m.projectLogits(StepStates(m, ids, off, view)[i])
  }

  /** Stepping over a cache that holds `p` reports, at every fed position, the logits of a full recompute
      up to that position; and the cache then holds `p + ids`. */
  lemma StepIsRecompute(m: Model, p: seq<int>, ids: seq<int>, i: nat)
    requires i < |ids|
    ensures StepLogits(m, ids, |p|, CacheOf(m, p), i) == Logits(m, p + ids[..i + 1])
    ensures StepKv(m, ids, |p|, CacheOf(m, p)) == CacheOf(m, p + ids)
  {
    IncrementalIsFull(m, p, ids);
    var seen := p + ids[..i + 1];
    assert p + ids == seen + ids[i + 1..];
    IncrementalIsFull(m, seen, ids[i + 1..]);
    assert States(m, p + ids)[|p|..][i] == States(m, p + ids)[..|p| + i + 1][|p| + i];
  }

  lemma FreshHoldsNothing(m: Model, slots: Slots)
    requires ValidModel(m) && |slots| == |m.layers|
    requires forall l :: 0 <= l < |slots| ==> slots[l] == None
    ensures Holds(m, slots, [])
  {
    assert Row(slots, 0) == CacheOf(m, []);
  }

  /** Rolling a cache that holds `toks` back to `n` positions leaves it holding the first `n` tokens. */
  lemma TruncateHolds(m: Model, slots: Slots, toks: seq<int>, n: nat)
    requires Holds(m, slots, toks) && n <= |toks|
    ensures Shaped(slots, 1, |toks|)
    ensures Holds(m, Truncated(slots, n), toks[..n])
  {
    forall l | 0 <= l < |slots| ensures SlotShaped(slots[l], 1, |toks|) {
      assert Row(slots, 0)[l] == SlotRow(slots[l], 0);
    }
    forall l | 0 <= l < |slots|
      ensures Row(Truncated(slots, n), 0)[l] == CacheOf(m, toks[..n])[l]
    {
      CachePrefix(m, toks, n, l);
      assert SlotRow(slots[l], 0) == CacheOf(m, toks)[l];
    }
    assert Row(Truncated(slots, n), 0) == CacheOf(m, toks[..n]);
  }

  /** The single-sequence stack step both entry points share. */
  method Step(m: Model, ids: seq<int>, cache: ContiguousKvCache, offset: int, ghost n: nat)
    returns (states: seq<Vec>)
    requires Ready(m, cache.layers, n)
    modifies cache
    ensures states == StepStates(m, ids, offset, Row(old(cache.layers), 0))
    ensures Row(cache.layers, 0) == StepKv(m, ids, offset, Row(old(cache.layers), 0))
    ensures Ready(m, cache.layers, n + |ids|)
  {
    assert StackFits(m.layers, Embeds(m, ids), Positions(offset, |ids|), Row(cache.layers, 0), Causal);
    var h := RunDecoderStack(m.layers, [Embeds(m, ids)], [Positions(offset, |ids|)], [Causal], cache);
    states := h[0];
  }

  /** `decode_logits`: the last position's logits. */
  method DecodeLogits(m: Model, ids: seq<int>, cache: ContiguousKvCache, offset: int, ghost n: nat)
    returns (logits: Vec)
    requires ids != [] && Ready(m, cache.layers, n)
    modifies cache
    ensures logits == StepLogits(m, ids, offset, Row(old(cache.layers), 0), |ids| - 1)
    ensures Row(cache.layers, 0) == StepKv(m, ids, offset, Row(old(cache.layers), 0))
    ensures Ready(m, cache.layers, n + |ids|)
  {
    var states := Step(m, ids, cache, offset, n);
    logits := m.projectLogits(states[|ids| - 1]);
  }

  /** `decode_logits_all`: every position's logits, the pass speculative decoding verifies drafts with. */
  method DecodeLogitsAll(m: Model, ids: seq<int>, cache: ContiguousKvCache, offset: int, ghost n: nat)
    returns (logits: seq<Vec>)
    requires Ready(m, cache.layers, n)
    modifies cache
    ensures |logits| == |ids|
    ensures forall i :: 0 <= i < |ids| ==> logits[i] == StepLogits(m, ids, offset, Row(old(cache.layers), 0), i)
    ensures Row(cache.layers, 0) == StepKv(m, ids, offset, Row(old(cache.layers), 0))
    ensures Ready(m, cache.layers, n + |ids|)
  {
    var states := Step(m, ids, cache, offset, n);
    logits := seq(|ids|, i requires 0 <= i < |ids| && |states| == |ids| => m.projectLogits(states[i]));
  }

  // ----- the same steps over a cache that is known to hold a token sequence -----

  /** `decode_logits` at the cache's own offset. */
  method Extend(m: Model, ids: seq<int>, cache: ContiguousKvCache, ghost held: seq<int>) returns (logits: Vec)
    requires ids != [] && Holds(m, cache.layers, held)
    modifies cache
    ensures logits == Logits(m, held + ids)
    ensures Holds(m, cache.layers, held + ids)
  {
    StepIsRecompute(m, held, ids, |ids| - 1);
    assert ids[..|ids|] == ids;
    assert Row(cache.layers, 0)[0] == SlotRow(cache.layers[0], 0);
    logits := DecodeLogits(m, ids, cache, cache.Offset(), |held|);
  }

  /** `decode_logits_all` at the cache's own offset. */
  method ExtendAll(m: Model, ids: seq<int>, cache: ContiguousKvCache, ghost held: seq<int>) returns (logits: seq<Vec>)
    requires ids != [] && Holds(m, cache.layers, held)
    modifies cache
    ensures |logits| == |ids|
    ensures forall i :: 0 <= i < |ids| ==> logits[i] == Logits(m, held + ids[..i + 1])
    ensures Holds(m, cache.layers, held + ids)
  {
    forall i | 0 <= i < |ids|
      ensures StepLogits(m, ids, |held|, CacheOf(m, held), i) == Logits(m, held + ids[..i + 1])
    {
      StepIsRecompute(m, held, ids, i);
    }
    StepIsRecompute(m, held, ids, 0);
    assert Row(cache.layers, 0)[0] == SlotRow(cache.layers[0], 0);
    logits := DecodeLogitsAll(m, ids, cache, cache.Offset(), |held|);
  }

  /** The cache's offset is how many tokens it holds. */
  lemma OffsetIsHeld(m: Model, cache: ContiguousKvCache, held: seq<int>)
    requires Holds(m, cache.layers, held)
    ensures cache.Offset() == |held|
  {
    assert Row(cache.layers, 0)[0] == SlotRow(cache.layers[0], 0);
  }
}
