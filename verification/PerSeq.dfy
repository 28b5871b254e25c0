/** src/models/llama.rs, `decode_logits_per_seq`: projections batched over the sequences, attention per sequence
    over each sequence's own paged cache, layer by layer, all caches drawing on one pool. */
module PerSeq {
  import opened Prelude
  import opened Attention
  import opened Llama
  import opened CausalLm
  import opened PagedKv
  import opened PagedLlama
  import opened PagedLanes

  /** It is layer `idx`'s turn in a step of one token. */
  predicate TurnOf(ph: Phase, idx: nat) { ph.done == idx && (idx == 0 || ph.step == 1) }

  /** One sequence's layer has moved exactly as in its own batch-1 forward. */
  ghost predicate RowTurn(numLayers: nat, l: Layer, idx: nat, x: Vec, position: int, before: Phase, out: Vec,
      after: Phase)
  {
    && idx < |before.view|
    && after == Turn(numLayers, before, idx, KeyValues(Project(l, [x], [position])))
    && [out] == LayerOut(l, [x], [position], before.view[idx], Causal)
  }

  /** The same before the residual: `a` is what the row's query attended. */
  ghost predicate Attended(numLayers: nat, l: Layer, idx: nat, x: Vec, position: int, before: Phase, a: Vec,
      after: Phase)
  {
    && idx < |before.view|
    && after == Turn(numLayers, before, idx, KeyValues(Project(l, [x], [position])))
    && [a] == Sdpa(l.kernel, Queries(Project(l, [x], [position])), LayerKv(l, [x], [position], before.view[idx]),
        Causal)
  }

  lemma ResidualRow(numLayers: nat, l: Layer, idx: nat, x: Vec, position: int, before: Phase, a: Vec, after: Phase,
      out: Vec)
    requires Attended(numLayers, l, idx, x, position, before, a, after) && out == l.combineFfn(x, l.output(a))
    ensures RowTurn(numLayers, l, idx, x, position, before, out, after)
  {
  }

  /** The row's query over everything its own cache then holds is that attention. */
  lemma RowAttended(numLayers: nat, l: Layer, idx: nat, p: Projected, x: Vec, position: int, before: Phase,
      all: seq<KV>, attended: seq<Vec>)
    requires idx < |before.view| && Project(l, [x], [position]) == [p] && all == before.view[idx] + [p.kv]
    requires attended == Sdpa(l.kernel, [p.q], all, Causal)
    ensures |attended| == 1
    ensures Attended(numLayers, l, idx, x, position, before, attended[0], Turn(numLayers, before, idx, [p.kv]))
  {
    assert KeyValues([p]) == [p.kv] && Queries([p]) == [p.q];
    assert [attended[0]] == attended;
  }

  /** One row's attention in a per-sequence layer. */
  method AttendRow(numLayers: nat, l: Layer, idx: nat, p: Projected, pool: BlockPool, caches: seq<PagedKvCache>, r: nat,
                   ghost x: Vec, ghost position: int, ghost phases: seq<Phase>)
    returns (a: Vec, ghost after: Phase)
    requires r < |caches| == |phases| && idx < numLayers && LanesAt(numLayers, pool, caches, phases)
        && TurnOf(phases[r], idx)
    requires Project(l, [x], [position]) == [p]
    modifies caches[r], pool
    ensures Attended(numLayers, l, idx, x, position, phases[r], a, after)
    ensures LanesAt(numLayers, pool, caches, phases[r := after])
  {
    hide LanesAt, Attended, Turn, Project, Sdpa;
    after := Phase([], 0, 0);
    var all := UpdateLane(numLayers, pool, caches, r, idx, [p.kv], phases);
    after := Turn(numLayers, phases[r], idx, [p.kv]);
    var attended := SdpaDispatch(l.kernel, l.heads, l.headDim, [p.q], all, Causal);
    RowAttended(numLayers, l, idx, p, x, position, phases[r], all, attended);
    a := attended[0];
  }

  /** `LlamaLayer::forward_per_seq` for one token per sequence. */
  method LayerForwardPerSeq(numLayers: nat, l: Layer, idx: nat, xs: seq<Vec>, positions: seq<int>, pool: BlockPool,
                            caches: seq<PagedKvCache>, ghost phases: seq<Phase>)
    returns (out: seq<Vec>, ghost after: seq<Phase>)
    requires |positions| == |caches| == |xs| == |phases| && idx < numLayers && LanesAt(numLayers, pool, caches, phases)
    requires forall r :: 0 <= r < |phases| ==> TurnOf(phases[r], idx)
    modifies caches, pool
    ensures |out| == |after| == |xs| && LanesAt(numLayers, pool, caches, after)
    ensures forall r :: 0 <= r < |xs| ==> RowTurn(numLayers, l, idx, xs[r], positions[r], phases[r], out[r], after[r])
  {
    hide LanesAt, Attended, RowTurn;
    var ps := Project(l, xs, positions);
    var outs: seq<Vec> := [];
    after := phases;
    for r := 0 to |caches|
      invariant |outs| == r && |after| == |phases| && LanesAt(numLayers, pool, caches, after)
      invariant forall i :: r <= i < |phases| ==> after[i] == phases[i]
      invariant forall i :: 0 <= i < r ==> Attended(numLayers, l, idx, xs[i], positions[i], phases[i], outs[i],
          after[i])
    {
      RowProjects(l, xs, positions, r);
      ghost var moved;
      var a;
      a, moved := AttendRow(numLayers, l, idx, ps[r], pool, caches, r, xs[r], positions[r], after);
      outs := outs + [a];
      after := after[r := moved];
    }
    out := Residual(l, xs, outs);
    forall r | 0 <= r < |xs| ensures RowTurn(numLayers, l, idx, xs[r], positions[r], phases[r], out[r], after[r]) {
      ResidualRow(numLayers, l, idx, xs[r], positions[r], phases[r], outs[r], after[r], out[r]);
    }
  }

  lemma RowProjects(l: Layer, xs: seq<Vec>, positions: seq<int>, r: nat)
    requires r < |xs| == |positions|
    ensures Project(l, [xs[r]], [positions[r]]) == [Project(l, xs, positions)[r]]
  {
  }

  /** After `i` layers the sequence is where its own batch-1 forward would be. */
  ghost predicate RowAt(m: Model, id: int, position: int, past: seq<seq<KV>>, i: nat, h: Vec, ph: Phase)
    requires i <= |m.layers|
  {
    && |past| == |ph.view| == |m.layers|
    && ph.done == (if i == |m.layers| then 0 else i) && (0 < i < |m.layers| ==> ph.step == 1)
    && (i == |m.layers| ==> ph.step == 0)
    && ph.view[i..] == past[i..]
    && StackFits(m.layers, [m.embed(id)], [position], past, Causal)
    && StackProgress(m.layers, [m.embed(id)], [position], Causal, past, i, [h], ph.view[..i])
  }

  lemma RowStarts(m: Model, id: int, position: int, past: seq<seq<KV>>)
    requires ValidModel(m) && |past| == |m.layers|
    ensures RowAt(m, id, position, past, 0, m.embed(id), Phase(past, 0, 0))
  {
  }

  lemma RowAdvances(m: Model, id: int, position: int, past: seq<seq<KV>>, i: nat, h: Vec, ph: Phase, h': Vec,
      ph': Phase)
    requires i < |m.layers| && RowAt(m, id, position, past, i, h, ph)
    requires RowTurn(|m.layers|, m.layers[i], i, h, position, ph, h', ph')
    ensures RowAt(m, id, position, past, i + 1, h', ph')
  {
    hide StackProgress, LayerOut;
    assert ph.view[i] == past[i] by {
      assert ph.view[i..][0] == past[i..][0];
    }
    StackAdvance(m.layers, [m.embed(id)], [position], Causal, past, i, [h], ph.view[..i]);
    var kv := LayerKv(m.layers[i], [h], [position], past[i]);
    assert ph'.view == ph.view[i := kv];
    assert ph'.view[..i + 1] == ph.view[..i] + [kv];
    assert ph'.view[i + 1..] == ph.view[i..][1..] == past[i + 1..];
  }

  lemma RowDone(m: Model, id: int, position: int, past: seq<seq<KV>>, h: Vec, ph: Phase)
    requires RowAt(m, id, position, past, |m.layers|, h, ph)
    ensures m.projectLogits(h) == StepLogits(m, [id], position, past, 0)
    ensures ph == Phase(StepKv(m, [id], position, past), 0, 0)
  {
    assert Embeds(m, [id]) == [m.embed(id)] && Positions(position, 1) == [position];
    assert ph.view[..|m.layers|] == ph.view;
  }

  /** The lanes after each was fed its own token at its own position. */
  function Stepped(m: Model, held: seq<seq<int>>, feed: seq<int>, positions: seq<int>): (out: seq<Phase>)
    requires |feed| == |positions| == |held|
    ensures |out| == |held|
    ensures forall r :: 0 <= r < |held| ==> out[r] == Phase(StepKv(m, [feed[r]], positions[r], CacheOf(m, held[r])),
        0, 0)
  {
    seq(|held|, r requires 0 <= r < |held| => Phase(StepKv(m, [feed[r]], positions[r], CacheOf(m, held[r])), 0, 0))
  }

  /** Row `r` of the logits is sequence `r`'s own batch-1 step. */
  ghost predicate OwnSteps(m: Model, held: seq<seq<int>>, feed: seq<int>, positions: seq<int>, logits: seq<Vec>)
    requires |feed| == |positions| == |held|
  {
    |logits| == |feed|
    && forall r :: 0 <= r < |feed| ==> logits[r] == StepLogits(m, [feed[r]], positions[r], CacheOf(m, held[r]), 0)
  }

  /** Every row where its batch-1 forward would be after `i` layers. */
  ghost predicate RowsAt(m: Model, held: seq<seq<int>>, feed: seq<int>, positions: seq<int>, i: nat, h: seq<Vec>,
      phases: seq<Phase>)
    requires i <= |m.layers| && |feed| == |positions| == |held|
  {
    |h| == |phases| == |feed|
    && forall r :: 0 <= r < |feed| ==> RowAt(m, feed[r], positions[r], CacheOf(m, held[r]), i, h[r], phases[r])
  }

  lemma RowsStart(m: Model, held: seq<seq<int>>, feed: seq<int>, positions: seq<int>)
    requires ValidModel(m) && |feed| == |positions| == |held|
    ensures RowsAt(m, held, feed, positions, 0, Embeds(m, feed), RestPhases(m, held))
  {
    forall r | 0 <= r < |feed|
      ensures RowAt(m, feed[r], positions[r], CacheOf(m, held[r]), 0, Embeds(m, feed)[r], RestPhases(m, held)[r])
    {
      RowStarts(m, feed[r], positions[r], CacheOf(m, held[r]));
    }
  }

  lemma RowsTurn(m: Model, held: seq<seq<int>>, feed: seq<int>, positions: seq<int>, i: nat, h: seq<Vec>,
      phases: seq<Phase>)
    requires i < |m.layers| && |feed| == |positions| == |held| && RowsAt(m, held, feed, positions, i, h, phases)
    ensures |phases| == |feed| && forall r :: 0 <= r < |phases| ==> TurnOf(phases[r], i)
  {
    hide StackProgress, StackFits;
  }

  lemma RowsAdvance(m: Model, held: seq<seq<int>>, feed: seq<int>, positions: seq<int>, i: nat, h: seq<Vec>,
      phases: seq<Phase>, h': seq<Vec>, phases': seq<Phase>)
    requires i < |m.layers| && |feed| == |positions| == |held| && RowsAt(m, held, feed, positions, i, h, phases)
    requires |h'| == |phases'| == |feed|
    requires forall r :: 0 <= r < |feed| ==>
      RowTurn(|m.layers|, m.layers[i], i, h[r], positions[r], phases[r], h'[r], phases'[r])
    ensures RowsAt(m, held, feed, positions, i + 1, h', phases')
  {
    hide RowAt, RowTurn;
    forall r | 0 <= r < |feed|
      ensures RowAt(m, feed[r], positions[r], CacheOf(m, held[r]), i + 1, h'[r], phases'[r])
    {
      RowAdvances(m, feed[r], positions[r], CacheOf(m, held[r]), i, h[r], phases[r], h'[r], phases'[r]);
    }
  }

  lemma RowsDone(m: Model, held: seq<seq<int>>, feed: seq<int>, positions: seq<int>, h: seq<Vec>, phases: seq<Phase>,
      logits: seq<Vec>)
    requires |feed| == |positions| == |held| && RowsAt(m, held, feed, positions, |m.layers|, h, phases)
    requires |logits| == |h| && forall r :: 0 <= r < |h| ==> logits[r] == m.projectLogits(h[r])
    ensures OwnSteps(m, held, feed, positions, logits) && phases == Stepped(m, held, feed, positions)
  {
    hide RowAt, StepLogits, StepKv;
    forall r | 0 <= r < |feed|
      ensures logits[r] == StepLogits(m, [feed[r]], positions[r], CacheOf(m, held[r]), 0)
      ensures phases[r] == Phase(StepKv(m, [feed[r]], positions[r], CacheOf(m, held[r])), 0, 0)
    {
      RowDone(m, feed[r], positions[r], CacheOf(m, held[r]), h[r], phases[r]);
    }
  }

  function Projections(m: Model, h: seq<Vec>): (out: seq<Vec>)
    ensures |out| == |h| && forall r :: 0 <= r < |h| ==> out[r] == m.projectLogits(h[r])
  {
    seq(|h|, r requires 0 <= r < |h| => m.projectLogits(h[r]))
  }

  /** `decode_logits_per_seq`: row `r` of the batched step is sequence `r`'s own batch-1 step, in exact
      arithmetic, and no sequence touches another's content. */
  method DecodeLogitsPerSeq(m: Model, feed: seq<int>, pool: BlockPool, caches: seq<PagedKvCache>, positions: seq<int>,
                            ghost held: seq<seq<int>>)
    returns (res: Result<seq<Vec>, Error>)
    requires |held| == |caches| && LanesHold(m, pool, caches, held)
    modifies caches, pool
    ensures res.Ok? <==> |caches| == |positions| == |feed|
    ensures res.Err? ==> LanesHold(m, pool, caches, held)
    ensures res.Ok? ==> OwnSteps(m, held, feed, positions, res.value)
    ensures res.Ok? ==> LanesAt(|m.layers|, pool, caches, Stepped(m, held, feed, positions))
  {
    if |caches| != |feed| {
      return Err(Msg("decode_logits_per_seq: wrong number of caches"));
    }
    if |positions| != |feed| {
      return Err(Msg("decode_logits_per_seq: wrong number of positions"));
    }
    var h := Embeds(m, feed);
    ghost var phases := RestPhases(m, held);
    RowsStart(m, held, feed, positions);
    hide LanesAt, RowsAt, RowTurn, TurnOf;
    for i := 0 to |m.layers|
      invariant |h| == |phases| == |feed| && LanesAt(|m.layers|, pool, caches, phases)
      invariant RowsAt(m, held, feed, positions, i, h, phases)
    {
      RowsTurn(m, held, feed, positions, i, h, phases);
      ghost var h0, phases0 := h, phases;
      h, phases := LayerForwardPerSeq(|m.layers|, m.layers[i], i, h, positions, pool, caches, phases);
      RowsAdvance(m, held, feed, positions, i, h0, phases0, h, phases);
    }
    var logits := Projections(m, h);
    RowsDone(m, held, feed, positions, h, phases, logits);
    return Ok(logits);
  }
}
