/** The decoder over paged caches: src/models/llama.rs stepping src/primitives/paged_kv_cache.rs, one sequence
    (`decode_logits`) and all lanes of a continuous batch that share one pool. */
module PagedLlama {
  import opened Attention
  import opened CausalLm
  import opened Llama
  import opened PagedKv
  import opened Prelude

  /** Where a sequence stands: what each layer holds, how many layers have taken their turn in the current step, and
      how many positions the step has. Between steps no layer has. */
  datatype Phase = Phase(view: seq<seq<KV>>, done: nat, step: nat)

  /** One sequence's fields as a value. */
  datatype LaneState = LaneState(blockIds: seq<nat>, frozen: seq<Option<seq<KV>>>, tail: seq<Option<seq<KV>>>,
    tailLen: nat)

  function StateOf(cache: PagedKvCache): LaneState
    reads cache
  {
    LaneState(cache.blockIds, cache.frozen, cache.tail, cache.tailLen)
  }

  /** Over the pool's blocks, the fields stand for this phase. */
  ghost predicate AtPhase(numLayers: nat, blocks: Blocks, blockSize: nat, s: LaneState, ph: Phase)
  {
    && Consistent(blocks, s.blockIds, s.frozen, s.tail, numLayers, blockSize)
    && ViewOf(blocks, s.blockIds, s.frozen, s.tail, numLayers, blockSize) == ph.view
    && s.tailLen < blockSize
    && forall l :: 0 <= l < numLayers ==> |OrEmpty(s.tail[l])| == s.tailLen + (if l < ph.done then ph.step else 0)
  }

  ghost predicate PagedAt(cache: PagedKvCache, ph: Phase)
    reads cache, cache.pool
  {
    && cache.pool.Valid() && multiset(cache.blockIds) <= cache.pool.held
    && AtPhase(cache.numLayers, cache.pool.blocks, cache.pool.blockSize, StateOf(cache), ph)
  }

  lemma PagedAtIff(cache: PagedKvCache, ph: Phase)
    ensures PagedAt(cache, ph) <==> cache.Valid() && cache.MidStep(ph.done, ph.step) && cache.View() == ph.view
  {
  }

  /** Between steps, with the content of `toks`. */
  function Rest(m: Model, toks: seq<int>): Phase { Phase(CacheOf(m, toks), 0, 0) }

  /** The paged cache holds exactly the keys and values of `toks`. */
  ghost predicate PagedHolds(m: Model, cache: PagedKvCache, toks: seq<int>)
    reads cache, cache.pool
  {
    ValidModel(m) && cache.numLayers == |m.layers| && PagedAt(cache, Rest(m, toks))
  }

  lemma PagedOffsetIsHeld(m: Model, cache: PagedKvCache, toks: seq<int>)
    requires PagedHolds(m, cache, toks)
    ensures cache.Len() == |toks|
  {
    PagedAtIff(cache, Rest(m, toks));
    assert |cache.View()[0]| == |toks|;
  }

  /** LlamaLayer::forward for one sequence: project, append to the cache, attend everything held. */
  method PagedLayerForward(l: Layer, idx: nat, xs: seq<Vec>, pos: seq<int>, cache: PagedKvCache,
      ghost others: multiset<nat>)
    returns (out: seq<Vec>)
    requires cache.Valid() && idx < cache.numLayers && |pos| == |xs| && cache.MidStep(idx, |xs|)
    requires Accounted(cache.pool.held, cache.blockIds, others)
    modifies cache, cache.pool
    ensures cache.Valid() && cache.View() == Appended(old(cache.View()), idx, KeyValues(Project(l, xs, pos)))
    ensures out == LayerOut(l, xs, pos, old(cache.View())[idx], Causal)
    ensures idx + 1 == cache.numLayers ==> cache.AtRest()
    ensures idx + 1 < cache.numLayers ==> cache.MidStep(idx + 1, |xs|)
    ensures Accounted(cache.pool.held, cache.blockIds, others)
        && KeptFor(old(cache.pool.blocks), cache.pool.blocks, others)
  {
    var ps := Project(l, xs, pos);
    var res := cache.Update(idx, [KeyValues(ps)], others);
    var attended := SdpaDispatch(l.kernel, l.heads, l.headDim, Queries(ps), res.value, Causal);
    out := Residual(l, xs, attended);
  }

  /** The layers done hold `done`, the rest still hold the past; one more layer joins. */
  lemma ViewAdvances(l: Layer, xs: seq<Vec>, pos: seq<int>, done: seq<seq<KV>>, past: seq<seq<KV>>, i: nat)
    requires |done| == i < |past| && |pos| == |xs|
    ensures (done + past[i..])[i] == past[i]
    ensures Appended(done + past[i..], i, KeyValues(Project(l, xs, pos))) == done + [LayerKv(l, xs, pos, past[i])]
        + past[i + 1..]
  {
  }

  lemma StackBegins(ls: seq<Layer>, xs: seq<Vec>, pos: seq<int>, past: seq<seq<KV>>)
    requires |pos| == |xs| && |past| == |ls|
    ensures StackFits(ls, xs, pos, past, Causal) && StackProgress(ls, xs, pos, Causal, past, 0, xs, [])
    ensures [] + past[0..] == past
  {
  }

  lemma StackEnds(ls: seq<Layer>, xs: seq<Vec>, pos: seq<int>, past: seq<seq<KV>>, h: seq<Vec>, done: seq<seq<KV>>)
    requires StackFits(ls, xs, pos, past, Causal) && |h| == |xs|
        && StackProgress(ls, xs, pos, Causal, past, |ls|, h, done)
    ensures h == StackOut(ls, xs, pos, past, Causal) && done + past[|ls|..] == StackKv(ls, xs, pos, past, Causal)
  {
  }

  /** `run_decoder_stack` for one sequence over its paged cache. */
  method PagedStack(ls: seq<Layer>, xs: seq<Vec>, pos: seq<int>, cache: PagedKvCache, ghost others: multiset<nat>)
    returns (h: seq<Vec>)
    requires cache.Valid() && cache.AtRest() && cache.numLayers == |ls| > 0 && |pos| == |xs|
    requires Accounted(cache.pool.held, cache.blockIds, others)
    modifies cache, cache.pool
    ensures cache.Valid() && cache.AtRest()
    ensures h == StackOut(ls, xs, pos, old(cache.View()), Causal)
    ensures cache.View() == StackKv(ls, xs, pos, old(cache.View()), Causal)
    ensures Accounted(cache.pool.held, cache.blockIds, others)
        && KeptFor(old(cache.pool.blocks), cache.pool.blocks, others)
  {
    h := xs;
    ghost var past, blocks0 := cache.View(), cache.pool.blocks;
    ghost var done: seq<seq<KV>> := [];
    KeptHeld(cache.pool, others);
    StackBegins(ls, xs, pos, past);
    var i := 0;
    while i < |ls|
      invariant 0 <= i <= |ls| && |h| == |xs| && |done| == i
      invariant cache.Valid() && cache.View() == done + past[i..]
      invariant if i == |ls| then cache.AtRest() else cache.MidStep(i, |xs|)
      invariant StackFits(ls, xs, pos, past, Causal) && StackProgress(ls, xs, pos, Causal, past, i, h, done)
      invariant Accounted(cache.pool.held, cache.blockIds, others) && KeptFor(blocks0, cache.pool.blocks, others)
    {
      ghost var prev := cache.pool.blocks;
      StackAdvance(ls, xs, pos, Causal, past, i, h, done);
      ViewAdvances(ls[i], h, pos, done, past, i);
      done := done + [LayerKv(ls[i], h, pos, past[i])];
      h := PagedLayerForward(ls[i], i, h, pos, cache, others);
      KeptStep(blocks0, prev, cache.pool.blocks, others, others);
      i := i + 1;
    }
    StackEnds(ls, xs, pos, past, h, done);
  }

  /** `decode_logits` at the cache's own offset: the last position's logits are the full recompute's. */
  method PagedDecodeLogits(m: Model, ids: seq<int>, cache: PagedKvCache, ghost held: seq<int>,
      ghost others: multiset<nat>)
    returns (logits: Vec)
    requires ids != [] && PagedHolds(m, cache, held) && Accounted(cache.pool.held, cache.blockIds, others)
    modifies cache, cache.pool
    ensures logits == Logits(m, held + ids) && PagedHolds(m, cache, held + ids)
    ensures Accounted(cache.pool.held, cache.blockIds, others)
        && KeptFor(old(cache.pool.blocks), cache.pool.blocks, others)
  {
    hide AtPhase, StackOut, StackKv, Consistent, KeptFor;
    PagedOffsetIsHeld(m, cache, held);
    PagedAtIff(cache, Rest(m, held));
    StepIsRecompute(m, held, ids, |ids| - 1);
    assert ids[..|ids|] == ids;
    var h := PagedStack(m.layers, Embeds(m, ids), Positions(cache.Len(), |ids|), cache, others);
    logits := m.projectLogits(h[|ids| - 1]);
    PagedAtIff(cache, Rest(m, held + ids));
  }

  // ----- all lanes over one pool -----

  /** The references of every table but the `i`-th. */
  function Elsewhere(tables: seq<seq<nat>>, i: nat): multiset<nat>
    requires i < |tables|
  {
    multiset(Flatten(tables[..i])) + multiset(Flatten(tables[i + 1..]))
  }

  lemma {:induction false} FlattenAt<T>(parts: seq<seq<T>>, i: nat)
    requires i < |parts|
    ensures Flatten(parts) == Flatten(parts[..i]) + parts[i] + Flatten(parts[i + 1..])
    decreases |parts|
  {
    if i > 0 {
      FlattenAt(parts[1..], i - 1);
      assert parts[1..][..i - 1] == parts[..i][1..] && parts[1..][i..] == parts[i + 1..];
    }
  }

  /** The pool's references are one table's and those elsewhere. */
  lemma ReferencesSplit(tables: seq<seq<nat>>, i: nat)
    requires i < |tables|
    ensures multiset(Flatten(tables)) == multiset(tables[i]) + Elsewhere(tables, i)
  {
    FlattenAt(tables, i);
    assert Flatten(tables) == Flatten(tables[..i]) + tables[i] + Flatten(tables[i + 1..]);
  }

  /** Another table's references are among those elsewhere. */
  lemma OtherTableElsewhere(tables: seq<seq<nat>>, i: nat, j: nat)
    requires i < |tables| && j < |tables| && i != j
    ensures multiset(tables[j]) <= Elsewhere(tables, i)
  {
    if j < i {
      FlattenAt(tables[..i], j);
    } else {
      FlattenAt(tables[i + 1..], j - i - 1);
    }
  }

  function StatesOf(caches: seq<PagedKvCache>): (out: seq<LaneState>)
    reads caches
    ensures |out| == |caches| && forall i :: 0 <= i < |caches| ==> out[i] == StateOf(caches[i])
  {
    seq(|caches|, i requires 0 <= i < |caches| reads caches => StateOf(caches[i]))
  }

  function TablesOf(states: seq<LaneState>): (out: seq<seq<nat>>)
    ensures |out| == |states| && forall i :: 0 <= i < |states| ==> out[i] == states[i].blockIds
  {
    seq(|states|, i requires 0 <= i < |states| => states[i].blockIds)
  }

  /** Every lane is at its own phase, and the pool counts exactly the lanes' references. */
  ghost predicate StatesAt(numLayers: nat, blocks: Blocks, blockSize: nat, references: multiset<nat>,
                           states: seq<LaneState>, phases: seq<Phase>)
  {
    && |phases| == |states| && references == multiset(Flatten(TablesOf(states)))
    && forall i :: 0 <= i < |states| ==> AtPhase(numLayers, blocks, blockSize, states[i], phases[i])
  }

  /** Only one table changed, and the pool still counts it and those elsewhere. */
  lemma TablesAfter(before: seq<seq<nat>>, after: seq<seq<nat>>, i: nat, references: multiset<nat>)
    requires i < |before| == |after| && references == multiset(after[i]) + Elsewhere(before, i)
    requires forall j :: 0 <= j < |before| && j != i ==> after[j] == before[j]
    ensures references == multiset(Flatten(after))
  {
    ReferencesSplit(after, i);
    assert after[..i] == before[..i] && after[i + 1..] == before[i + 1..];
  }

  /** Stepping one lane, keeping everybody else's blocks, leaves all others where they were. */
  lemma OneLaneStepped(numLayers: nat, before: Blocks, after: Blocks, blockSize: nat, references: multiset<nat>,
                       states: seq<LaneState>, phases: seq<Phase>, i: nat, references': multiset<nat>, s: LaneState,
                       ph: Phase)
    requires i < |states| && StatesAt(numLayers, before, blockSize, references, states, phases)
    requires KeptFor(before, after, Elsewhere(TablesOf(states), i))
    requires AtPhase(numLayers, after, blockSize, s, ph)
    requires references' == multiset(s.blockIds) + Elsewhere(TablesOf(states), i)
    ensures StatesAt(numLayers, after, blockSize, references', states[i := s], phases[i := ph])
  {
    var tables := TablesOf(states);
    var others := Elsewhere(tables, i);
    var now := TablesOf(states[i := s]);
    TablesAfter(tables, now, i, references');
    hide AtPhase, KeptFor, Elsewhere;
    forall j | 0 <= j < |states| && j != i ensures AtPhase(numLayers, after, blockSize, states[j], phases[j]) {
      OtherTableElsewhere(tables, i, j);
      StillAt(numLayers, before, after, others, blockSize, states[j], phases[j]);
    }
  }

  /** Nobody notices a change that keeps its blocks. */
  lemma StillAt(numLayers: nat, before: Blocks, after: Blocks, others: multiset<nat>, blockSize: nat, s: LaneState,
      ph: Phase)
    requires KeptFor(before, after, others) && multiset(s.blockIds) <= others
    requires AtPhase(numLayers, before, blockSize, s, ph)
    ensures AtPhase(numLayers, after, blockSize, s, ph)
  {
    OthersKeepTheirView(before, after, others, s.blockIds, s.frozen, s.tail, numLayers, blockSize);
  }

  /** Distinct lanes of one pool, all of one depth. */
  ghost predicate SharePool(numLayers: nat, pool: BlockPool, caches: seq<PagedKvCache>)
  {
    && (forall i :: 0 <= i < |caches| ==> caches[i].pool == pool && caches[i].numLayers == numLayers)
    && forall i, j :: 0 <= i < j < |caches| ==> caches[i] != caches[j]
  }

  /** The lanes of a batch over their shared pool. */
  ghost predicate LanesAt(numLayers: nat, pool: BlockPool, caches: seq<PagedKvCache>, phases: seq<Phase>)
    reads pool, caches
  {
    && pool.Valid() && SharePool(numLayers, pool, caches)
    && StatesAt(numLayers, pool.blocks, pool.blockSize, pool.held, StatesOf(caches), phases)
  }

  /** One lane of many: it is at its phase, and the rest of the references are the other lanes'. */
  lemma LaneAmongLanes(numLayers: nat, pool: BlockPool, caches: seq<PagedKvCache>, i: nat, phases: seq<Phase>)
    requires i < |caches| && LanesAt(numLayers, pool, caches, phases)
    ensures |phases| == |caches| && caches[i].pool == pool && caches[i].numLayers == numLayers
    ensures PagedAt(caches[i], phases[i])
    ensures Accounted(pool.held, caches[i].blockIds, Elsewhere(TablesOf(StatesOf(caches)), i))
  {
    ReferencesSplit(TablesOf(StatesOf(caches)), i);
  }

  /** The others as they were, lane `i` at its new phase: the lanes are all where they should be. */
  lemma LanesAfter(numLayers: nat, pool: BlockPool, caches: seq<PagedKvCache>, i: nat, phases: seq<Phase>,
      blocks0: Blocks, references: multiset<nat>, states: seq<LaneState>, ph: Phase)
    requires i < |caches| == |phases| == |states| && SharePool(numLayers, pool, caches)
    requires StatesAt(numLayers, blocks0, pool.blockSize, references, states, phases)
    requires forall j :: 0 <= j < |caches| && j != i ==> StateOf(caches[j]) == states[j]
    requires PagedAt(caches[i], ph) && KeptFor(blocks0, pool.blocks, Elsewhere(TablesOf(states), i))
    requires Accounted(pool.held, caches[i].blockIds, Elsewhere(TablesOf(states), i))
    ensures LanesAt(numLayers, pool, caches, phases[i := ph])
  {
    OneLaneStepped(numLayers, blocks0, pool.blocks, pool.blockSize, references, states, phases, i, pool.held,
                   StateOf(caches[i]), ph);
    assert StatesOf(caches) == states[i := StateOf(caches[i])];
  }

  // ----- lanes between steps -----

  function RestPhases(m: Model, held: seq<seq<int>>): (out: seq<Phase>)
    ensures |out| == |held| && forall i :: 0 <= i < |held| ==> out[i] == Rest(m, held[i])
  {
    seq(|held|, i requires 0 <= i < |held| => Rest(m, held[i]))
  }

  /** Each lane holds its own tokens. */
  ghost predicate LanesHold(m: Model, pool: BlockPool, caches: seq<PagedKvCache>, held: seq<seq<int>>)
    reads pool, caches
  {
    ValidModel(m) && LanesAt(|m.layers|, pool, caches, RestPhases(m, held))
  }

  /** No lanes hold no blocks. */
  lemma NoLanes(m: Model, pool: BlockPool)
    requires ValidModel(m) && pool.Valid()
    ensures LanesHold(m, pool, [], []) <==> pool.held == multiset{}
  {
  }

  /** One lane, wherever the others are. */
  method ExtendAt(m: Model, pool: BlockPool, caches: seq<PagedKvCache>, i: nat, ids: seq<int>, ghost toks: seq<int>,
                  ghost phases: seq<Phase>)
    returns (logits: Vec)
    requires ids != [] && i < |caches| == |phases| && ValidModel(m)
    requires LanesAt(|m.layers|, pool, caches, phases) && phases[i] == Rest(m, toks)
    modifies caches[i], pool
    ensures logits == Logits(m, toks + ids)
    ensures LanesAt(|m.layers|, pool, caches, phases[i := Rest(m, toks + ids)])
  {
    ghost var states, blocks0, references := StatesOf(caches), pool.blocks, pool.held;
    LaneAmongLanes(|m.layers|, pool, caches, i, phases);
    logits := PagedDecodeLogits(m, ids, caches[i], toks, Elsewhere(TablesOf(states), i));
    LanesAfter(|m.layers|, pool, caches, i, phases, blocks0, references, states, Rest(m, toks + ids));
  }

  /** One lane's turn: it gets the logits of its own history, and no other lane notices. */
  method ExtendLane(m: Model, pool: BlockPool, caches: seq<PagedKvCache>, i: nat, ids: seq<int>,
      ghost held: seq<seq<int>>)
    returns (logits: Vec)
    requires ids != [] && i < |caches| == |held| && LanesHold(m, pool, caches, held)
    modifies caches[i], pool
    ensures logits == Logits(m, held[i] + ids)
    ensures LanesHold(m, pool, caches, held[i := held[i] + ids])
  {
    RestPhasesAfter(m, held, i, held[i] + ids);
    hide LanesAt, Logits, CacheOf;
    logits := ExtendAt(m, pool, caches, i, ids, held[i], RestPhases(m, held));
  }

  lemma RestPhasesAfter(m: Model, held: seq<seq<int>>, i: nat, toks: seq<int>)
    requires i < |held|
    ensures RestPhases(m, held)[i := Rest(m, toks)] == RestPhases(m, held[i := toks])
  {
  }
}
