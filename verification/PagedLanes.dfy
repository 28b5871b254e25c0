/** Sequences coming, going and stepping over one block pool (src/primitives/paged_kv_cache.rs, as
    src/decode/continuous.rs and src/models/llama.rs use it): opening and dropping a lane, and one layer's turn. */
module PagedLanes {
  import opened Attention
  import opened Llama
  import opened PagedKv
  import opened PagedLlama
  import opened Prelude

  function Without<T>(s: seq<T>, j: nat): (out: seq<T>)
    requires j < |s|
    ensures |out| == |s| - 1
    ensures forall i :: 0 <= i < |out| ==> out[i] == if i < j then s[i] else s[i + 1]
  {
    s[..j] + s[j + 1..]
  }

  lemma WithoutMiddle<T>(a: seq<T>, x: T, b: seq<T>)
    ensures Without(a + ([x] + b), |a|) == a + b
  {
  }

  lemma RestWithout(m: Model, held: seq<seq<int>>, j: nat)
    requires j < |held|
    ensures Without(RestPhases(m, held), j) == RestPhases(m, Without(held, j))
  {
  }

  // ----- a lane comes -----

  lemma StateJoins(numLayers: nat, blocks: Blocks, blockSize: nat, references: multiset<nat>, states: seq<LaneState>,
                   phases: seq<Phase>, s: LaneState, ph: Phase)
    requires StatesAt(numLayers, blocks, blockSize, references, states, phases)
    requires AtPhase(numLayers, blocks, blockSize, s, ph) && s.blockIds == []
    ensures StatesAt(numLayers, blocks, blockSize, references, states + [s], phases + [ph])
  {
    hide AtPhase;
    assert TablesOf(states + [s]) == TablesOf(states) + [[]];
    FlattenSnoc(TablesOf(states), []);
    assert Flatten(TablesOf(states)) + [] == Flatten(TablesOf(states));
  }

  lemma LaneJoins(numLayers: nat, pool: BlockPool, caches: seq<PagedKvCache>, phases: seq<Phase>, cache: PagedKvCache,
      ph: Phase)
    requires LanesAt(numLayers, pool, caches, phases) && cache !in caches
    requires cache.pool == pool && cache.numLayers == numLayers && PagedAt(cache, ph) && cache.blockIds == []
    ensures LanesAt(numLayers, pool, caches + [cache], phases + [ph])
  {
    StateJoins(numLayers, pool.blocks, pool.blockSize, pool.held, StatesOf(caches), phases, StateOf(cache), ph);
    assert StatesOf(caches + [cache]) == StatesOf(caches) + [StateOf(cache)];
  }

  /** A fresh cache on the pool holds nothing and takes no block. */
  method OpenLane(m: Model, pool: BlockPool, caches: seq<PagedKvCache>, ghost held: seq<seq<int>>)
      returns (cache: PagedKvCache)
    requires LanesHold(m, pool, caches, held) && |held| == |caches|
    ensures fresh(cache) && LanesHold(m, pool, caches + [cache], held + [[]])
  {
    cache := OpenCache(m, pool);
    hide LanesAt, PagedAt, CacheOf;
    LaneJoins(|m.layers|, pool, caches, RestPhases(m, held), cache, Rest(m, []));
    assert RestPhases(m, held + [[]]) == RestPhases(m, held) + [Rest(m, [])];
  }

  method OpenCache(m: Model, pool: BlockPool) returns (cache: PagedKvCache)
    requires pool.Valid()
    ensures fresh(cache) && cache.pool == pool && cache.numLayers == |m.layers| && cache.blockIds == []
    ensures PagedAt(cache, Rest(m, []))
  {
    cache := new PagedKvCache.WithPool(pool, |m.layers|);
    PagedAtIff(cache, Rest(m, []));
    EmptyCache(m, cache.View());
  }

  lemma EmptyCache(m: Model, view: seq<seq<KV>>)
    requires |view| == |m.layers| && forall l :: 0 <= l < |view| ==> view[l] == []
    ensures view == CacheOf(m, [])
  {
  }

  // ----- a lane goes -----

  /** The references elsewhere are those of the states that stay. */
  lemma ElsewhereIsLeft(states: seq<LaneState>, j: nat)
    requires j < |states|
    ensures multiset(Flatten(TablesOf(Without(states, j)))) == Elsewhere(TablesOf(states), j)
  {
    var tables := TablesOf(states);
    FlattenAppend(tables[..j], tables[j + 1..]);
    assert TablesOf(Without(states, j)) == tables[..j] + tables[j + 1..];
  }

  /** Without lane `j` and its references, the others are where they were. */
  lemma StateLeaves(numLayers: nat, before: Blocks, after: Blocks, blockSize: nat, references: multiset<nat>,
                    states: seq<LaneState>, phases: seq<Phase>, j: nat)
    requires j < |states| && StatesAt(numLayers, before, blockSize, references, states, phases)
    requires KeptFor(before, after, Elsewhere(TablesOf(states), j))
    ensures StatesAt(numLayers, after, blockSize, Elsewhere(TablesOf(states), j), Without(states, j),
        Without(phases, j))
  {
    var tables := TablesOf(states);
    var others := Elsewhere(tables, j);
    ElsewhereIsLeft(states, j);
    hide AtPhase, KeptFor, Elsewhere, Flatten;
    var left, leftPhases := Without(states, j), Without(phases, j);
    forall k | 0 <= k < |left| ensures AtPhase(numLayers, after, blockSize, left[k], leftPhases[k]) {
      var i := if k < j then k else k + 1;
      OtherTableElsewhere(tables, j, i);
      StillAt(numLayers, before, after, others, blockSize, states[i], phases[i]);
    }
  }

  /** A lane is dropped: its references go back, and no other lane notices. */
  method DropLane(numLayers: nat, pool: BlockPool, caches: seq<PagedKvCache>, j: nat, ghost phases: seq<Phase>)
    requires j < |caches| == |phases| && LanesAt(numLayers, pool, caches, phases)
    modifies pool
    ensures LanesAt(numLayers, pool, Without(caches, j), Without(phases, j))
  {
    ghost var states, blocks0, references := StatesOf(caches), pool.blocks, pool.held;
    LaneAmongLanes(numLayers, pool, caches, j, phases);
    PagedAtIff(caches[j], phases[j]);
    caches[j].Drop(Elsewhere(TablesOf(states), j));
    StateLeaves(numLayers, blocks0, pool.blocks, pool.blockSize, references, states, phases, j);
    LaneLeft(numLayers, pool, caches, j, Without(phases, j));
  }

  /** The same between steps. */
  method DropHeld(m: Model, pool: BlockPool, caches: seq<PagedKvCache>, j: nat, ghost held: seq<seq<int>>)
    requires j < |caches| == |held| && LanesHold(m, pool, caches, held)
    modifies pool
    ensures LanesHold(m, pool, Without(caches, j), Without(held, j))
  {
    RestWithout(m, held, j);
    hide LanesAt, Rest, Without;
    DropLane(|m.layers|, pool, caches, j, RestPhases(m, held));
  }

  lemma LaneLeft(numLayers: nat, pool: BlockPool, caches: seq<PagedKvCache>, j: nat, phases: seq<Phase>)
    requires j < |caches| && pool.Valid() && SharePool(numLayers, pool, caches)
    requires StatesAt(numLayers, pool.blocks, pool.blockSize, pool.held, Without(StatesOf(caches), j), phases)
    ensures LanesAt(numLayers, pool, Without(caches, j), phases)
  {
    assert StatesOf(Without(caches, j)) == Without(StatesOf(caches), j);
  }

  // ----- one layer's turn -----

  /** The phase after layer `layer` appended `step`; the last layer ends the step. */
  function Turn(numLayers: nat, ph: Phase, layer: nat, step: seq<KV>): Phase
    requires layer < |ph.view|
  {
    if layer + 1 == numLayers then Phase(Appended(ph.view, layer, step), 0, 0)
    else Phase(Appended(ph.view, layer, step), layer + 1, |step|)
  }

  /** One cache's turn of one layer. */
  method CacheTurn(cache: PagedKvCache, layer: nat, step: seq<KV>, ghost ph: Phase, ghost others: multiset<nat>)
    returns (all: seq<KV>)
    requires PagedAt(cache, ph) && layer < cache.numLayers && Accounted(cache.pool.held, cache.blockIds, others)
    requires ph.done == layer && (layer == 0 || ph.step == |step|)
    modifies cache, cache.pool
    ensures layer < |ph.view| && all == ph.view[layer] + step && PagedAt(cache, Turn(cache.numLayers, ph, layer, step))
    ensures Accounted(cache.pool.held, cache.blockIds, others)
        && KeptFor(old(cache.pool.blocks), cache.pool.blocks, others)
  {
    PagedAtIff(cache, ph);
    var res := cache.Update(layer, [step], others);
    all := res.value;
    PagedAtIff(cache, Turn(cache.numLayers, ph, layer, step));
  }

  /** One lane's turn of one layer: it attends everything it holds, and no other lane notices. */
  method UpdateLane(numLayers: nat, pool: BlockPool, caches: seq<PagedKvCache>, i: nat, layer: nat, step: seq<KV>,
                    ghost phases: seq<Phase>)
    returns (all: seq<KV>)
    requires i < |caches| == |phases| && LanesAt(numLayers, pool, caches, phases) && layer < numLayers
    requires phases[i].done == layer && (layer == 0 || phases[i].step == |step|)
    modifies caches[i], pool
    ensures layer < |phases[i].view| && all == phases[i].view[layer] + step
    ensures LanesAt(numLayers, pool, caches, phases[i := Turn(numLayers, phases[i], layer, step)])
  {
    ghost var states, blocks0, references := StatesOf(caches), pool.blocks, pool.held;
    LaneAmongLanes(numLayers, pool, caches, i, phases);
    all := CacheTurn(caches[i], layer, step, phases[i], Elsewhere(TablesOf(states), i));
    LanesAfter(numLayers, pool, caches, i, phases, blocks0, references, states,
      Turn(numLayers, phases[i], layer, step));
  }
}
