/** Copy-on-write prefix reuse between live sequences (src/primitives/paged_kv_cache.rs): one lane offers its whole
    blocks, another is seeded with them and decodes only the rest (`generate_with_cache` of src/decode/stream.rs over a
    paged cache). */
module PagedShare {
  import opened Arith
  import opened Attention
  import opened CausalLm
  import opened Llama
  import opened PagedKv
  import opened PagedLanes
  import opened PagedLlama
  import opened Prelude
  import opened Sampler
  import opened Stream

  // ----- the donor offers, the sibling adopts -----

  /** How many positions of a sequence of `len` positions are in whole blocks within its first `tokens`. */
  function SharedLen(len: nat, tokens: nat, blockSize: nat): (n: nat)
    requires blockSize > 0
    ensures n <= Min(tokens, len) < n + blockSize && n % blockSize == 0
  {
    var k := Quot(Min(tokens, len), blockSize);
    assert k * blockSize + Min(tokens, len) % blockSize == Min(tokens, len);
    DivUnique(k * blockSize, k, 0, blockSize);
    Times(k, blockSize)
  }

  lemma WholeBlocks(n: nat, tail: nat, tokens: nat, blockSize: nat)
    requires tail < blockSize
    ensures Times(Min(Quot(tokens, blockSize), n), blockSize)
         == SharedLen(Times(n, blockSize) + tail, tokens, blockSize)
  {
    var len, k := Times(n, blockSize) + tail, Quot(tokens, blockSize);
    DivUnique(len, n, tail, blockSize);
    if tokens <= len {
      DivMonotone(tokens, len, blockSize);
    } else {
      DivMonotone(len, tokens, blockSize);
    }
  }

  lemma DivMonotone(a: nat, b: nat, d: nat)
    requires a <= b && d > 0
    ensures Quot(a, d) <= Quot(b, d)
  {
    var p, q := a / d, b / d;
    assert a == p * d + a % d && b == q * d + b % d;
    if p > q {
      MulMonotone(q + 1, p, d);
    }
  }

  /** One cache's offer changes neither its content nor anybody else's blocks. */
  method CacheOffers(cache: PagedKvCache, tokens: nat, ghost ph: Phase, ghost others: multiset<nat>)
    returns (ids: seq<nat>)
    requires PagedAt(cache, ph) && ph.done == 0 == ph.step && cache.numLayers > 0
    requires Accounted(cache.pool.held, cache.blockIds, others)
    modifies cache, cache.pool
    ensures PagedAt(cache, ph) && Accounted(cache.pool.held, cache.blockIds, others)
    ensures KeptFor(old(cache.pool.blocks), cache.pool.blocks, others)
    ensures cache.Valid() && cache.Offers(ids)
    ensures Times(|ids|, cache.pool.blockSize) == SharedLen(old(cache.Len()), tokens, cache.pool.blockSize)
  {
    PagedAtIff(cache, ph);
    WholeBlocks(|cache.blockIds|, cache.tailLen, tokens, cache.pool.blockSize);
    ids := cache.ShareablePrefixBlocks(tokens, others);
    PagedAtIff(cache, ph);
  }

  /** The donor, lane `i`, puts its whole blocks within the first `tokens` positions into the pool. Every lane, the
      donor included, still holds what it held. */
  method OfferPrefix(m: Model, pool: BlockPool, caches: seq<PagedKvCache>, i: nat, tokens: nat,
                     ghost held: seq<seq<int>>)
    returns (ids: seq<nat>)
    requires i < |caches| == |held| && LanesHold(m, pool, caches, held)
    modifies caches[i], pool
    ensures LanesHold(m, pool, caches, held)
    ensures Offered(pool, caches[i], ids)
    ensures Times(|ids|, pool.blockSize) == SharedLen(|held[i]|, tokens, pool.blockSize)
  {
    LaneOffset(m, pool, caches, i, held);
    hide LanesAt, SharedLen, Offered, CacheOf;
    ids := OfferAt(|m.layers|, pool, caches, i, tokens, RestPhases(m, held));
  }

  method OfferAt(numLayers: nat, pool: BlockPool, caches: seq<PagedKvCache>, i: nat, tokens: nat,
                 ghost phases: seq<Phase>)
    returns (ids: seq<nat>)
    requires i < |caches| == |phases| && numLayers > 0 && LanesAt(numLayers, pool, caches, phases)
    requires phases[i].done == 0 == phases[i].step
    modifies caches[i], pool
    ensures LanesAt(numLayers, pool, caches, phases) && Offered(pool, caches[i], ids)
    ensures Times(|ids|, pool.blockSize) == SharedLen(old(caches[i].Len()), tokens, pool.blockSize)
  {
    ghost var states, blocks0, references := StatesOf(caches), pool.blocks, pool.held;
    LaneAmongLanes(numLayers, pool, caches, i, phases);
    ids := CacheOffers(caches[i], tokens, phases[i], Elsewhere(TablesOf(states), i));
    LanesAfter(numLayers, pool, caches, i, phases, blocks0, references, states, phases[i]);
    assert phases[i := phases[i]] == phases;
  }

  /** The blocks `ids` carry the beginning of this cache's content. */
  ghost predicate Offered(pool: BlockPool, cache: PagedKvCache, ids: seq<nat>)
    reads pool, cache, cache.pool
  {
    cache.pool == pool && cache.Valid() && cache.Offers(ids)
  }

  /** A new sequence adopts what the donor offers: no block is written, each gets one reference more, and the new lane
      holds the donor's tokens up to there. */
  method SeedLane(m: Model, pool: BlockPool, caches: seq<PagedKvCache>, i: nat, ids: seq<nat>,
                  ghost held: seq<seq<int>>)
    returns (cache: PagedKvCache)
    requires i < |caches| == |held| && LanesHold(m, pool, caches, held) && Offered(pool, caches[i], ids)
    modifies pool
    ensures fresh(cache) && cache.blockIds == ids
    ensures pool.blocks == old(pool.blocks) && pool.held == old(pool.held) + multiset(ids)
    ensures LanesHold(m, pool, caches + [cache], held + [First(held[i], Times(|ids|, pool.blockSize))])
  {
    ghost var toks := First(held[i], Times(|ids|, pool.blockSize));
    LaneOffers(m, pool, caches, i, ids, held);
    hide LanesAt, Offered, BlocksHold, CacheOf, First, Rest;
    cache := SeedAt(m, pool, caches, ids, toks, RestPhases(m, held));
    RestPhasesSnoc(m, held, toks);
  }

  lemma RestPhasesSnoc(m: Model, held: seq<seq<int>>, toks: seq<int>)
    ensures RestPhases(m, held + [toks]) == RestPhases(m, held) + [Rest(m, toks)]
  {
  }

  method SeedAt(m: Model, pool: BlockPool, caches: seq<PagedKvCache>, ids: seq<nat>, ghost toks: seq<int>,
                ghost phases: seq<Phase>)
    returns (cache: PagedKvCache)
    requires |phases| == |caches| && LanesAt(|m.layers|, pool, caches, phases) && BlocksHold(m, pool, ids, toks)
    modifies pool
    ensures fresh(cache) && cache.blockIds == ids
    ensures pool.blocks == old(pool.blocks) && pool.held == old(pool.held) + multiset(ids)
    ensures LanesAt(|m.layers|, pool, caches + [cache], phases + [Rest(m, toks)])
  {
    ghost var states := StatesOf(caches);
    cache := SeedCache(m, pool, ids, toks);
    hide AtPhase, BlocksHold, CacheOf;
    SeededJoins(|m.layers|, pool, caches, phases, states, cache, Rest(m, toks));
  }

  lemma LaneOffers(m: Model, pool: BlockPool, caches: seq<PagedKvCache>, i: nat, ids: seq<nat>, held: seq<seq<int>>)
    requires i < |caches| == |held| && LanesHold(m, pool, caches, held) && Offered(pool, caches[i], ids)
    ensures BlocksHold(m, pool, ids, First(held[i], Times(|ids|, pool.blockSize)))
  {
    LaneAmongLanes(|m.layers|, pool, caches, i, RestPhases(m, held));
    OfferedIsPrefix(m, caches[i], held[i], ids);
  }

  /** The tokens of the first `n` positions. */
  function First(toks: seq<int>, n: nat): seq<int> { toks[..Min(n, |toks|)] }

  /** The blocks hold the keys and values of `toks`. */
  ghost predicate BlocksHold(m: Model, pool: BlockPool, ids: seq<nat>, toks: seq<int>)
    reads pool
  {
    && TableShaped(pool.blocks, ids, |m.layers|, pool.blockSize) && AllMaterialized(pool.blocks, ids)
    && forall l :: 0 <= l < |m.layers| ==>
      Joined(pool.blocks, ids, l, |m.layers|, pool.blockSize) == CacheOf(m, toks)[l]
  }

  method SeedCache(m: Model, pool: BlockPool, ids: seq<nat>, ghost toks: seq<int>) returns (cache: PagedKvCache)
    requires pool.Valid() && BlocksHold(m, pool, ids, toks)
    modifies pool`held
    ensures fresh(cache) && cache.pool == pool && cache.numLayers == |m.layers| && cache.blockIds == ids
    ensures pool.held == old(pool.held) + multiset(ids) && PagedAt(cache, Rest(m, toks))
  {
    cache := new PagedKvCache.Seeded(pool, |m.layers|, ids);
    assert cache.View() == CacheOf(m, toks);
    PagedAtIff(cache, Rest(m, toks));
  }

  /** The offered blocks hold the keys and values of the donor's first tokens. */
  lemma OfferedIsPrefix(m: Model, cache: PagedKvCache, toks: seq<int>, ids: seq<nat>)
    requires PagedHolds(m, cache, toks) && cache.Valid() && cache.Offers(ids)
    ensures Times(|ids|, cache.pool.blockSize) <= |toks|
    ensures BlocksHold(m, cache.pool, ids, First(toks, Times(|ids|, cache.pool.blockSize)))
  {
    var n := Times(|ids|, cache.pool.blockSize);
    PagedAtIff(cache, Rest(m, toks));
    assert OfferedLayer(cache.pool.blocks, ids, cache.View()[0], 0, cache.numLayers, cache.pool.blockSize);
    forall l | 0 <= l < |m.layers|
      ensures Joined(cache.pool.blocks, ids, l, cache.numLayers, cache.pool.blockSize) == CacheOf(m, toks[..n])[l]
    {
      assert OfferedLayer(cache.pool.blocks, ids, cache.View()[l], l, cache.numLayers, cache.pool.blockSize);
      CachePrefix(m, toks, n, l);
    }
  }

  lemma SeededJoins(numLayers: nat, pool: BlockPool, caches: seq<PagedKvCache>, phases: seq<Phase>,
                    states: seq<LaneState>, cache: PagedKvCache, ph: Phase)
    requires pool.Valid() && SharePool(numLayers, pool, caches) && cache !in caches
    requires cache.pool == pool && cache.numLayers == numLayers && PagedAt(cache, ph)
    requires |phases| == |caches| == |states|
    requires forall j :: 0 <= j < |caches| ==> StateOf(caches[j]) == states[j]
    requires pool.held == multiset(Flatten(TablesOf(states))) + multiset(cache.blockIds)
    requires forall j :: 0 <= j < |caches| ==> AtPhase(numLayers, pool.blocks, pool.blockSize, states[j], phases[j])
    ensures LanesAt(numLayers, pool, caches + [cache], phases + [ph])
  {
    hide AtPhase;
    var s := StateOf(cache);
    assert StatesOf(caches + [cache]) == states + [s];
    assert TablesOf(states + [s]) == TablesOf(states) + [s.blockIds];
    FlattenSnoc(TablesOf(states), s.blockIds);
  }

  // ----- decoding over a paged cache -----

  /** `decode_loop` over lane `i`: where it holds the prompt's own tokens it is the cache-free run, whatever the other
      lanes are, and they hold what they held. */
  method LaneLoop(m: Model, pool: BlockPool, caches: seq<PagedKvCache>, i: nat, firstLogits: Vec, seed: Rng,
                  seedHistory: seq<int>, cfg: GenerationConfig, cancel: CancelFlag, poll0: nat, hooks: Hooks,
                  ghost held: seq<seq<int>>)
    returns (out: GenerationOutput, events: seq<StreamEvent>)
    requires i < |caches| == |held| && LanesHold(m, pool, caches, held)
    requires seedHistory != [] && held[i] != [] && firstLogits == Logits(m, held[i])
    modifies caches[i], pool
    ensures events == EventsOf(out)
    ensures LanesHold(m, pool, caches, held[i := held[i] + KeptTokens(out)])
    ensures held[i] == seedHistory ==> out == Solo(m, cfg, hooks, cancel, poll0, seedHistory, [], seed)
  {
    hide LanesHold, Logits, Sample, HostStops, Allowed;
    var logits, rng, history := firstLogits, seed, seedHistory;
    var generated: seq<int> := [];
    var finish := MaxTokens;
    events := [];
    ghost var base := held[i];
    ghost var goal := Solo(m, cfg, hooks, cancel, poll0, seedHistory, [], seed);
    assert base + [] == base && held[i := base] == held && seedHistory + [] == seedHistory;
    var step := 0;
    while step < cfg.maxNewTokens
      invariant 0 <= step <= cfg.maxNewTokens && |generated| == step
      invariant step == cfg.maxNewTokens ==> step == 0
      invariant history == seedHistory + generated && logits == Logits(m, base + generated)
      invariant LanesHold(m, pool, caches, held[i := base + generated])
      invariant events == TokenEvents(generated) && finish == MaxTokens
      invariant base == seedHistory ==>
        goal == Solo(m, cfg, hooks, cancel, poll0, seedHistory, generated, rng)
    {
      if Tripped(cancel, poll0 + step) {
        finish := Cancelled;
        break;
      }
      var (next, rng') := Sample(logits, history, cfg.sampling, rng, Allowed(hooks, generated));
      rng := rng';
      if next in cfg.stopTokens {
        finish := StopToken;
        break;
      }
      TokenEventsSnoc(generated, next);
      ghost var before := generated;
      events := events + [Token(next, step)];
      generated := generated + [next];
      history := history + [next];
      assert generated[..|generated| - 1] == before;
      if HostStops(hooks, generated) {
        finish := Stopped;
        break;
      }
      if step + 1 == cfg.maxNewTokens {
        break;
      }
      assert base + before + [next] == base + generated;
      logits := ExtendLane(m, pool, caches, i, [next], held[i := base + before]);
      assert held[i := base + before][i := base + generated] == held[i := base + generated];
      step := step + 1;
    }
    events := events + [Done(finish, |generated|)];
    out := GenerationOutput(generated, finish);
  }

  /** Prefill what the lane does not hold yet, then loop. */
  method PrefillAndLoopLane(m: Model, prompt: seq<int>, n: nat, pool: BlockPool, caches: seq<PagedKvCache>, i: nat,
                            cfg: GenerationConfig, cancel: CancelFlag, poll0: nat, hooks: Hooks,
                            ghost held: seq<seq<int>>)
    returns (out: GenerationOutput, events: seq<StreamEvent>)
    requires i < |caches| == |held| && LanesHold(m, pool, caches, held)
    requires n == |held[i]| < |prompt|
    modifies caches[i], pool
    ensures events == EventsOf(out)
    ensures LanesHold(m, pool, caches, held[i := held[i] + prompt[n..] + KeptTokens(out)])
    ensures held[i] == prompt[..n] ==> out == Solo(m, cfg, hooks, cancel, poll0, prompt, [], cfg.seed)
  {
    hide LanesHold, Solo, Logits;
    ghost var base := held[i] + prompt[n..];
    assert prompt[..n] + prompt[n..] == prompt;
    var logits := ExtendLane(m, pool, caches, i, prompt[n..], held);
    out, events := LaneLoop(m, pool, caches, i, logits, cfg.seed, prompt, cfg, cancel, poll0, hooks, held[i := base]);
    assert held[i := base][i := base + KeptTokens(out)] == held[i := base + KeptTokens(out)];
  }

  /** `generate_with_cache` over a paged lane. A cache that leaves no suffix is refused and left alone; over a prefix of
      the prompt the run is the cold one. */
  method GenerateWithLane(m: Model, prompt: seq<int>, pool: BlockPool, caches: seq<PagedKvCache>, i: nat,
                          cfg: GenerationConfig, cancel: CancelFlag, ghost held: seq<seq<int>>)
    returns (res: Result<GenerationOutput, Error>, events: seq<StreamEvent>)
    requires i < |caches| == |held| && LanesHold(m, pool, caches, held)
    modifies caches[i], pool
    ensures Tripped(cancel, 0) ==> res == Err(Canceled)
    ensures !Tripped(cancel, 0) ==> (res.Ok? <==> |held[i]| < |prompt|)
    ensures res.Err? ==> events == [] && LanesHold(m, pool, caches, held)
    ensures res.Ok? ==> events == EventsOf(res.value)
    ensures res.Ok? ==>
      LanesHold(m, pool, caches, held[i := held[i] + prompt[|held[i]|..] + KeptTokens(res.value)])
    ensures res.Ok? && held[i] == prompt[..|held[i]|] ==>
      res.value == Solo(m, cfg, NoHooks, cancel, 1, prompt, [], cfg.seed)
  {
    if Tripped(cancel, 0) {
      return Err(Canceled), [];
    }
    if prompt == [] {
      return Err(Msg("generate_with_cache: empty prompt")), [];
    }
    hide LanesHold, Solo, KeptTokens, EventsOf;
    LaneOffset(m, pool, caches, i, held);
    var offset := caches[i].Len();
    if offset >= |prompt| {
      return Err(Msg("generate_with_cache: the cache leaves no prompt suffix to prefill")), [];
    }
    var out;
    out, events := PrefillAndLoopLane(m, prompt, offset, pool, caches, i, cfg, cancel, 1, NoHooks, held);
    return Ok(out), events;
  }

  lemma LaneOffset(m: Model, pool: BlockPool, caches: seq<PagedKvCache>, i: nat, held: seq<seq<int>>)
    requires i < |caches| == |held| && LanesHold(m, pool, caches, held)
    ensures caches[i].Len() == |held[i]|
  {
    LaneAmongLanes(|m.layers|, pool, caches, i, RestPhases(m, held));
    PagedOffsetIsHeld(m, caches[i], held[i]);
  }

  // ----- end to end -----

  lemma SharedTokens(toks: seq<int>, prompt: seq<int>, tokens: nat, n: nat)
    requires n <= tokens <= |toks| && tokens <= |prompt| && toks[..tokens] == prompt[..tokens]
    ensures First(toks, n) == prompt[..n]
  {
    assert toks[..tokens][..n] == toks[..n] && prompt[..tokens][..n] == prompt[..n];
  }

  lemma BlocksAreSized(m: Model, pool: BlockPool, caches: seq<PagedKvCache>, held: seq<seq<int>>)
    requires LanesHold(m, pool, caches, held)
    ensures pool.blockSize > 0
  {
  }

  /** A sibling of lane `donor`, for a prompt that begins with the same `tokens` tokens: it starts with the whole
      blocks of that beginning, and every lane, the donor included, holds what it held. */
  method OpenShared(m: Model, prompt: seq<int>, pool: BlockPool, caches: seq<PagedKvCache>, donor: nat, tokens: nat,
                    ghost held: seq<seq<int>>)
    returns (cache: PagedKvCache)
    requires donor < |caches| == |held| && LanesHold(m, pool, caches, held)
    requires tokens <= |prompt| && tokens <= |held[donor]| && prompt[..tokens] == held[donor][..tokens]
    modifies caches[donor], pool
    ensures fresh(cache) && pool.blockSize > 0
    ensures LanesHold(m, pool, caches + [cache], held + [prompt[..SharedLen(|held[donor]|, tokens, pool.blockSize)]])
  {
    BlocksAreSized(m, pool, caches, held);
    hide SharedLen, LanesHold, Offered, First;
    var ids := OfferPrefix(m, pool, caches, donor, tokens, held);
    cache := SeedLane(m, pool, caches, donor, ids, held);
    SharedTokens(held[donor], prompt, tokens, Times(|ids|, pool.blockSize));
  }

  /** Two requests with a common beginning: the second is seeded with the first one's blocks, feeds only the rest, and
      its run is the cold run all the same, while every other lane, the donor included, holds what it held. */
  method GenerateShared(m: Model, prompt: seq<int>, pool: BlockPool, caches: seq<PagedKvCache>, donor: nat, tokens: nat,
                        cfg: GenerationConfig, cancel: CancelFlag, ghost held: seq<seq<int>>)
    returns (res: Result<GenerationOutput, Error>, events: seq<StreamEvent>, cache: PagedKvCache)
    requires donor < |caches| == |held| && LanesHold(m, pool, caches, held)
    requires tokens <= |prompt| && tokens <= |held[donor]| && prompt[..tokens] == held[donor][..tokens]
    modifies caches[donor], pool
    ensures fresh(cache) && pool.blockSize > 0
    ensures Tripped(cancel, 0) ==> res == Err(Canceled)
    ensures !Tripped(cancel, 0) ==>
      (res.Ok? <==> SharedLen(|held[donor]|, tokens, pool.blockSize) < |prompt|)
    ensures res.Err? ==> events == [] && LanesHold(m, pool, caches + [cache],
      held + [prompt[..SharedLen(|held[donor]|, tokens, pool.blockSize)]])
    ensures res.Ok? ==>
      res.value == Solo(m, cfg, NoHooks, cancel, 1, prompt, [], cfg.seed) && events == EventsOf(res.value)
    ensures res.Ok? ==> LanesHold(m, pool, caches + [cache], held + [prompt + KeptTokens(res.value)])
  {
    hide SharedLen, Solo, LanesHold, KeptTokens, EventsOf;
    cache := OpenShared(m, prompt, pool, caches, donor, tokens, held);
    ghost var begun := prompt[..SharedLen(|held[donor]|, tokens, pool.blockSize)];
    res, events := GenerateWithLane(m, prompt, pool, caches + [cache], |caches|, cfg, cancel, held + [begun]);
    if res.Ok? {
      GrownLast(held, begun, prompt, KeptTokens(res.value));
    }
  }

  lemma GrownLast(held: seq<seq<int>>, begun: seq<int>, prompt: seq<int>, kept: seq<int>)
    requires begun <= prompt
    ensures (held + [begun])[|held| := begun + prompt[|begun|..] + kept] == held + [prompt + kept]
  {
    assert begun + prompt[|begun|..] == prompt;
  }
}
