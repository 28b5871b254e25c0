/** src/decode/stream.rs: the streaming, cancellable decode loop every fast path is compared against. */
module Stream {
  import opened Prelude
  import opened Attention
  import opened KvCache
  import opened Llama
  import opened CausalLm
  import opened Sampler

  datatype FinishReason = StopToken | MaxTokens | Cancelled | Stopped

  datatype StreamEvent =
    | Token(id: int, step: nat)
    | Done(reason: FinishReason, generated: nat)

  datatype GenerationConfig = GenerationConfig(
    maxNewTokens: nat,
    sampling: SamplingParams,
    seed: Rng,
    stopTokens: seq<int>)

  datatype GenerationOutput = GenerationOutput(tokens: seq<int>, finishReason: FinishReason)

  /** The optional seams of `generate_with`. A constraint offers the mask that follows the tokens accepted so
      far; a host stop condition looks at the tokens emitted so far. */
  datatype Hooks = Hooks(constraint: Option<seq<int> -> seq<bool>>, shouldStop: Option<seq<int> -> bool>)

  const NoHooks: Hooks := Hooks(None, None)

  function Allowed(hooks: Hooks, accepted: seq<int>): Option<seq<bool>>
  {
    match hooks.constraint
    case None => None
    case Some(f) => Some(f(accepted))
  }

  predicate HostStops(hooks: Hooks, emitted: seq<int>)
  {
    hooks.shouldStop.Some? && hooks.shouldStop.value(emitted)
  }

  /** A cancel flag as its polls see it: once tripped it stays tripped. */
  datatype CancelFlag = Never | AtPoll(n: nat)

  predicate Tripped(c: CancelFlag, poll: nat) { c.AtPoll? && c.n <= poll }

  function TokenEvents(tokens: seq<int>): (ev: seq<StreamEvent>)
    ensures |ev| == |tokens|
    ensures forall i :: 0 <= i < |tokens| ==> ev[i] == Token(tokens[i], i)
  {
    seq(|tokens|, i requires 0 <= i < |tokens| => Token(tokens[i], i))
  }

  /** The event stream of a finished run: every token with its index, then exactly one `Done`. */
  function EventsOf(out: GenerationOutput): seq<StreamEvent>
  {
    TokenEvents(out.tokens) + [Done(out.finishReason, |out.tokens|)]
  }

  lemma TokenEventsSnoc(tokens: seq<int>, t: int)
    ensures TokenEvents(tokens + [t]) == TokenEvents(tokens) + [Token(t, |tokens|)]
  {
  }

  /** What a run that has already committed `generated` goes on to produce, with no cache at all: logits are
      a full recompute over prompt and generated tokens. Poll `poll0 + step` is the cancel check of `step`. */
  function Solo(m: Model, cfg: GenerationConfig, hooks: Hooks, cancel: CancelFlag, poll0: nat,
                prompt: seq<int>, generated: seq<int>, rng: Rng): GenerationOutput
    requires prompt != []
    decreases cfg.maxNewTokens - |generated|
  {
    if |generated| >= cfg.maxNewTokens then GenerationOutput(generated, MaxTokens)
    else if Tripped(cancel, poll0 + |generated|) then GenerationOutput(generated, Cancelled)
    else
      var history := prompt + generated;
      var (next, rng') := Sample(Logits(m, history), history, cfg.sampling, rng, Allowed(hooks, generated));
      if next in cfg.stopTokens then GenerationOutput(generated, StopToken)
      else if HostStops(hooks, generated + [next]) then GenerationOutput(generated + [next], Stopped)
      else Solo(m, cfg, hooks, cancel, poll0, prompt, generated + [next], rng')
  }

  /** The same loop over a concrete cache view, whatever that view holds. */
  function CachedRun(m: Model, cfg: GenerationConfig, hooks: Hooks, cancel: CancelFlag, poll0: nat,
                     view: seq<seq<KV>>, logits: Vec, history: seq<int>, generated: seq<int>, rng: Rng)
    : (r: (GenerationOutput, seq<seq<KV>>))
    requires ValidModel(m) && |view| == |m.layers|
    ensures |r.1| == |m.layers|
    decreases cfg.maxNewTokens - |generated|
  {
    if |generated| >= cfg.maxNewTokens then (GenerationOutput(generated, MaxTokens), view)
    else if Tripped(cancel, poll0 + |generated|) then (GenerationOutput(generated, Cancelled), view)
    else
      var (next, rng') := Sample(logits, history, cfg.sampling, rng, Allowed(hooks, generated));
      if next in cfg.stopTokens then (GenerationOutput(generated, StopToken), view)
      else
        var generated' := generated + [next];
        if HostStops(hooks, generated') then (GenerationOutput(generated', Stopped), view)
        else if |generated'| == cfg.maxNewTokens then (GenerationOutput(generated', MaxTokens), view)
        else
          var off := |view[0]|;
          CachedRun(m, cfg, hooks, cancel, poll0, StepKv(m, [next], off, view),
                    StepLogits(m, [next], off, view, 0), history + [next], generated', rng')
  }

  /** The generated tokens whose keys and values the loop leaves cached: all of them, except the last one of a
      non-empty run that ended by its budget or by the host. */
  function KeptTokens(out: GenerationOutput): seq<int>
  {
    if out.tokens != [] && (out.finishReason == MaxTokens || out.finishReason == Stopped)
    then out.tokens[..|out.tokens| - 1]
    else out.tokens
  }

  /** One cached step of the loop: its offset is what is held, its logits are those of the longer history. */
  lemma LoopStep(m: Model, history: seq<int>, next: int)
    requires ValidModel(m)
    ensures |CacheOf(m, history)| == |m.layers| && |CacheOf(m, history)[0]| == |history|
    ensures StepKv(m, [next], |history|, CacheOf(m, history)) == CacheOf(m, history + [next])
    ensures StepLogits(m, [next], |history|, CacheOf(m, history), 0) == Logits(m, history + [next])
  {
    StepIsRecompute(m, history, [next], 0);
    assert [next][..1] == [next];
  }

  /** Over a cache that really holds the history, the cached loop is the cache-free one, and it leaves
      exactly the prompt and the kept tokens cached. */
  lemma {:induction false} CachedRunIsSolo(m: Model, cfg: GenerationConfig, hooks: Hooks, cancel: CancelFlag,
      poll0: nat, prompt: seq<int>, generated: seq<int>, rng: Rng)
    requires ValidModel(m) && prompt != []
    requires generated == [] || |generated| < cfg.maxNewTokens
    ensures var history := prompt + generated;
      var r := CachedRun(m, cfg, hooks, cancel, poll0, CacheOf(m, history), Logits(m, history), history, generated,
          rng);
      && r.0 == Solo(m, cfg, hooks, cancel, poll0, prompt, generated, rng)
      && r.1 == CacheOf(m, prompt + KeptTokens(r.0))
    decreases cfg.maxNewTokens - |generated|
  {
    hide CacheOf, Logits, StepKv, StepLogits, Sample, HostStops, Allowed;
    var history := prompt + generated;
    if |generated| < cfg.maxNewTokens && !Tripped(cancel, poll0 + |generated|) {
      var (next, rng') := Sample(Logits(m, history), history, cfg.sampling, rng, Allowed(hooks, generated));
      var generated' := generated + [next];
      if next !in cfg.stopTokens {
        if HostStops(hooks, generated') || |generated'| == cfg.maxNewTokens {
          assert generated'[..|generated'| - 1] == generated;
        } else {
          LoopStep(m, history, next);
          assert history + [next] == prompt + generated';
          CachedRunIsSolo(m, cfg, hooks, cancel, poll0, prompt, generated', rng');
        }
      }
    }
  }

  /** Prefill the prompt's tokens from position `n` on over an arbitrary cache view, then loop. */
  function PrefilledRun(m: Model, cfg: GenerationConfig, hooks: Hooks, cancel: CancelFlag, poll0: nat,
                        prompt: seq<int>, n: nat, view: seq<seq<KV>>)
    : (r: (GenerationOutput, seq<seq<KV>>))
    requires ValidModel(m) && |view| == |m.layers| && n < |prompt|
    ensures |r.1| == |m.layers|
  {
    CachedRun(m, cfg, hooks, cancel, poll0, StepKv(m, prompt[n..], n, view),
              StepLogits(m, prompt[n..], n, view, |prompt| - n - 1), prompt, [], cfg.seed)
  }

  /** Over a cache that holds the prompt's first `n` tokens that is the cold run: the cached and the cold path
      differ only in how the first logits are produced. */
  lemma PrefilledRunIsSolo(m: Model, cfg: GenerationConfig, hooks: Hooks, cancel: CancelFlag, poll0: nat,
                           prompt: seq<int>, n: nat)
    requires ValidModel(m) && n < |prompt|
    ensures var r := PrefilledRun(m, cfg, hooks, cancel, poll0, prompt, n, CacheOf(m, prompt[..n]));
      && r.0 == Solo(m, cfg, hooks, cancel, poll0, prompt, [], cfg.seed)
      && r.1 == CacheOf(m, prompt + KeptTokens(r.0))
  {
    StepIsRecompute(m, prompt[..n], prompt[n..], |prompt| - n - 1);
    assert prompt[n..][..|prompt| - n] == prompt[n..];
    assert prompt[..n] + prompt[n..] == prompt == prompt + [];
    CachedRunIsSolo(m, cfg, hooks, cancel, poll0, prompt, [], cfg.seed);
  }

  /** Nothing is cut: a run's tokens never exceed the budget, and a run that ends by its budget filled it. */
  lemma {:induction false} SoloWithinBudget(m: Model, cfg: GenerationConfig, hooks: Hooks, cancel: CancelFlag,
      poll0: nat, prompt: seq<int>, generated: seq<int>, rng: Rng)
    requires prompt != [] && |generated| <= cfg.maxNewTokens
    ensures var out := Solo(m, cfg, hooks, cancel, poll0, prompt, generated, rng);
      && generated <= out.tokens && |out.tokens| <= cfg.maxNewTokens
      && (out.finishReason == MaxTokens ==> |out.tokens| == cfg.maxNewTokens)
    decreases cfg.maxNewTokens - |generated|
  {
    if |generated| < cfg.maxNewTokens && !Tripped(cancel, poll0 + |generated|) {
      var history := prompt + generated;
      var (next, rng') := Sample(Logits(m, history), history, cfg.sampling, rng, Allowed(hooks, generated));
      if next !in cfg.stopTokens && !HostStops(hooks, generated + [next]) {
        SoloWithinBudget(m, cfg, hooks, cancel, poll0, prompt, generated + [next], rng');
      }
    }
  }

  // ----- what a run is, token by token -----

  /** The sampler picks an allowed token whenever its mask allows one: what the mask asks of it. */
  ghost predicate RespectsMask(p: SamplingParams)
  {
    && (forall logits, h, mask: seq<bool> :: true in mask ==> Offers(mask, p.argmax(logits, h, Some(mask))))
    && (forall logits, h, mask: seq<bool>, rng :: true in mask ==> Offers(mask, p.draw(logits, h, Some(mask), rng).0))
  }

  predicate Offers(mask: seq<bool>, t: int) { 0 <= t < |mask| && mask[t] }

  /** Every token is allowed by the mask that follows the tokens before it, as long as that mask allows any. */
  ghost predicate Constrained(f: seq<int> -> seq<bool>, tokens: seq<int>)
  {
    forall i :: 0 <= i < |tokens| && true in f(tokens[..i]) ==> Offers(f(tokens[..i]), tokens[i])
  }

  /** A constrained run respects its constraint at every token. */
  lemma {:induction false} SoloIsConstrained(m: Model, cfg: GenerationConfig, hooks: Hooks, cancel: CancelFlag,
      poll0: nat, prompt: seq<int>, generated: seq<int>, rng: Rng)
    requires prompt != [] && hooks.constraint.Some? && RespectsMask(cfg.sampling)
    requires Constrained(hooks.constraint.value, generated)
    ensures Constrained(hooks.constraint.value, Solo(m, cfg, hooks, cancel, poll0, prompt, generated, rng).tokens)
    decreases cfg.maxNewTokens - |generated|
  {
    if |generated| < cfg.maxNewTokens && !Tripped(cancel, poll0 + |generated|) {
      var history, f := prompt + generated, hooks.constraint.value;
      var (next, rng') := Sample(Logits(m, history), history, cfg.sampling, rng, Allowed(hooks, generated));
      if next !in cfg.stopTokens {
        assert true in f(generated) ==> Offers(f(generated), next);
        ConstrainedSnoc(f, generated, next);
        if !HostStops(hooks, generated + [next]) {
          SoloIsConstrained(m, cfg, hooks, cancel, poll0, prompt, generated + [next], rng');
        }
      }
    }
  }

  lemma ConstrainedSnoc(f: seq<int> -> seq<bool>, tokens: seq<int>, t: int)
    requires Constrained(f, tokens) && (true in f(tokens) ==> Offers(f(tokens), t))
    ensures Constrained(f, tokens + [t])
  {
    assert (tokens + [t])[..|tokens|] == tokens;
    forall i | 0 <= i < |tokens| ensures (tokens + [t])[..i] == tokens[..i] {
    }
  }

  /** No non-empty proper prefix satisfies the host's condition, and the whole does exactly when the host stopped it. */
  ghost predicate StoppedByHost(hooks: Hooks, out: GenerationOutput)
  {
    && (hooks.shouldStop.None? ==> out.finishReason != Stopped)
    && (hooks.shouldStop.Some? ==>
      && (forall i :: 0 < i < |out.tokens| ==> !hooks.shouldStop.value(out.tokens[..i]))
      && (out.finishReason == Stopped <==> out.tokens != [] && hooks.shouldStop.value(out.tokens)))
  }

  /** The host's condition ends a run at once, and nothing else reports it. */
  lemma {:induction false} SoloStopsAtHost(m: Model, cfg: GenerationConfig, hooks: Hooks, cancel: CancelFlag,
      poll0: nat, prompt: seq<int>, generated: seq<int>, rng: Rng)
    requires prompt != []
    requires hooks.shouldStop.Some? ==> forall i :: 0 < i <= |generated| ==> !hooks.shouldStop.value(generated[..i])
    ensures StoppedByHost(hooks, Solo(m, cfg, hooks, cancel, poll0, prompt, generated, rng))
    decreases cfg.maxNewTokens - |generated|
  {
    assert generated[..|generated|] == generated;
    if |generated| < cfg.maxNewTokens && !Tripped(cancel, poll0 + |generated|) {
      var history := prompt + generated;
      var (next, rng') := Sample(Logits(m, history), history, cfg.sampling, rng, Allowed(hooks, generated));
      var longer := generated + [next];
      assert longer[..|longer|] == longer;
      forall i | 0 <= i <= |generated| ensures longer[..i] == generated[..i] {
      }
      if next !in cfg.stopTokens && !HostStops(hooks, longer) {
        SoloStopsAtHost(m, cfg, hooks, cancel, poll0, prompt, longer, rng');
      }
    }
  }

  /** No stop token is ever returned. */
  lemma {:induction false} SoloExcludesStops(m: Model, cfg: GenerationConfig, hooks: Hooks, cancel: CancelFlag,
      poll0: nat, prompt: seq<int>, generated: seq<int>, rng: Rng)
    requires prompt != [] && forall t :: t in generated ==> t !in cfg.stopTokens
    ensures forall t :: t in Solo(m, cfg, hooks, cancel, poll0, prompt, generated, rng).tokens ==> t !in cfg.stopTokens
    decreases cfg.maxNewTokens - |generated|
  {
    if |generated| < cfg.maxNewTokens && !Tripped(cancel, poll0 + |generated|) {
      var history := prompt + generated;
      var (next, rng') := Sample(Logits(m, history), history, cfg.sampling, rng, Allowed(hooks, generated));
      if next !in cfg.stopTokens && !HostStops(hooks, generated + [next]) {
        SoloExcludesStops(m, cfg, hooks, cancel, poll0, prompt, generated + [next], rng');
      }
    }
  }

  /** How many tokens the run has drawn: those it returns, and the stop token that ended it. */
  function Drawn(out: GenerationOutput): nat
  {
    |out.tokens| + (if out.finishReason == StopToken then 1 else 0)
  }

  /** What a flag that trips at poll `n` leaves of a run: all of it when its last draw came before, otherwise the tokens
      drawn before, reported as cancelled. */
  function CutAt(out: GenerationOutput, poll0: nat, n: nat): GenerationOutput
  {
    if Drawn(out) == 0 || poll0 + Drawn(out) <= n then out
    else GenerationOutput(out.tokens[..Min(Max(0, n - poll0), |out.tokens|)], Cancelled)
  }

  /** Cancelling cuts: a run under a flag is the uncancelled run up to the poll at which the flag trips. */
  lemma CancelledIsCut(m: Model, cfg: GenerationConfig, hooks: Hooks, n: nat, poll0: nat, prompt: seq<int>, rng: Rng)
    requires prompt != []
    ensures Solo(m, cfg, hooks, AtPoll(n), poll0, prompt, [], rng)
         == CutAt(Solo(m, cfg, hooks, Never, poll0, prompt, [], rng), poll0, n)
  {
    CutFrom(m, cfg, hooks, n, poll0, prompt, [], rng);
  }

  lemma {:induction false} CutFrom(m: Model, cfg: GenerationConfig, hooks: Hooks, n: nat, poll0: nat, prompt: seq<int>,
      generated: seq<int>, rng: Rng)
    requires prompt != [] && |generated| <= cfg.maxNewTokens && (generated != [] ==> poll0 + |generated| <= n)
    ensures var all := Solo(m, cfg, hooks, Never, poll0, prompt, generated, rng);
      && generated <= all.tokens && (all.finishReason != Cancelled)
      && Solo(m, cfg, hooks, AtPoll(n), poll0, prompt, generated, rng) == CutAt(all, poll0, n)
    decreases cfg.maxNewTokens - |generated|
  {
    hide Logits, Sample, HostStops, Allowed;
    if |generated| < cfg.maxNewTokens {
      var history := prompt + generated;
      var (next, rng') := Sample(Logits(m, history), history, cfg.sampling, rng, Allowed(hooks, generated));
      if Tripped(AtPoll(n), poll0 + |generated|) {
        SoloGrows(m, cfg, hooks, poll0, prompt, generated, rng);
      } else if next !in cfg.stopTokens && !HostStops(hooks, generated + [next]) {
        CutFrom(m, cfg, hooks, n, poll0, prompt, generated + [next], rng');
      }
    }
  }

  /** An uncancelled run below its budget draws at least once more. */
  lemma {:induction false} SoloGrows(m: Model, cfg: GenerationConfig, hooks: Hooks, poll0: nat, prompt: seq<int>,
      generated: seq<int>, rng: Rng)
    requires prompt != []
    ensures var all := Solo(m, cfg, hooks, Never, poll0, prompt, generated, rng);
      && generated <= all.tokens && all.finishReason != Cancelled
      && (|generated| < cfg.maxNewTokens ==> Drawn(all) > |generated|)
    decreases cfg.maxNewTokens - |generated|
  {
    hide Logits, Sample, HostStops, Allowed;
    if |generated| < cfg.maxNewTokens {
      var history := prompt + generated;
      var (next, rng') := Sample(Logits(m, history), history, cfg.sampling, rng, Allowed(hooks, generated));
      if next !in cfg.stopTokens && !HostStops(hooks, generated + [next]) {
        SoloGrows(m, cfg, hooks, poll0, prompt, generated + [next], rng');
      }
    }
  }

  /** Every token of a greedy run is the argmax over the full recompute of what comes before it. */
  lemma {:induction false} SoloIsGreedy(m: Model, cfg: GenerationConfig, hooks: Hooks, cancel: CancelFlag, poll0: nat,
      prompt: seq<int>, generated: seq<int>, rng: Rng)
    requires prompt != [] && cfg.sampling.temperature <= 0.0 && hooks.constraint.None?
    requires GreedyTokens(m, cfg, prompt, generated)
    ensures GreedyTokens(m, cfg, prompt, Solo(m, cfg, hooks, cancel, poll0, prompt, generated, rng).tokens)
    decreases cfg.maxNewTokens - |generated|
  {
    hide Logits;
    if |generated| < cfg.maxNewTokens && !Tripped(cancel, poll0 + |generated|) {
      var history := prompt + generated;
      var (next, rng') := Sample(Logits(m, history), history, cfg.sampling, rng, Allowed(hooks, generated));
      var longer := generated + [next];
      assert longer[..|generated|] == generated;
      forall i | 0 <= i < |generated| ensures longer[..i] == generated[..i] {
      }
      if next !in cfg.stopTokens && !HostStops(hooks, longer) {
        SoloIsGreedy(m, cfg, hooks, cancel, poll0, prompt, longer, rng');
      }
    }
  }

  ghost predicate GreedyTokens(m: Model, cfg: GenerationConfig, prompt: seq<int>, tokens: seq<int>)
    requires prompt != []
  {
    forall i :: 0 <= i < |tokens| ==>
      tokens[i] == cfg.sampling.argmax(Logits(m, prompt + tokens[..i]), prompt + tokens[..i], None)
  }

  // ----- the loop -----

  /** `decode_loop`. */
  method DecodeLoop(m: Model, cache: ContiguousKvCache, firstLogits: Vec, seed: Rng, seedHistory: seq<int>,
                    cfg: GenerationConfig, cancel: CancelFlag, poll0: nat, hooks: Hooks, ghost n: nat)
    returns (out: GenerationOutput, events: seq<StreamEvent>)
    requires Ready(m, cache.layers, n)
    modifies cache
    ensures (out, Row(cache.layers, 0))
         == CachedRun(m, cfg, hooks, cancel, poll0, Row(old(cache.layers), 0), firstLogits, seedHistory, [], seed)
    ensures events == EventsOf(out)
    ensures exists k: nat :: k >= n && Ready(m, cache.layers, k)
  {
    var logits, rng, history := firstLogits, seed, seedHistory;
    var generated: seq<int> := [];
    var finish := MaxTokens;
    events := [];
    ghost var k := n;
    ghost var goal := CachedRun(m, cfg, hooks, cancel, poll0, Row(cache.layers, 0), logits, history, [], rng);
    var step := 0;
    while step < cfg.maxNewTokens
      invariant 0 <= step <= cfg.maxNewTokens && |generated| == step
      invariant step == cfg.maxNewTokens ==> step == 0
      invariant k >= n && Ready(m, cache.layers, k)
      invariant events == TokenEvents(generated)
      invariant finish == MaxTokens
      invariant goal == CachedRun(m, cfg, hooks, cancel, poll0, Row(cache.layers, 0), logits, history, generated, rng)
    {
      if Tripped(cancel, poll0 + step) {
        finish := Cancelled;
        break;
      }
      var (next, rng') := Sample(logits, history, cfg.sampling, rng, Allowed(hooks, generated));
      rng := rng';
      if next in cfg.stopTokens {
        finish := StopToken;
        break;
      }
      TokenEventsSnoc(generated, next);
      events := events + [Token(next, step)];
      generated := generated + [next];
      history := history + [next];
      if HostStops(hooks, generated) {
        finish := Stopped;
        break;
      }
      if step + 1 == cfg.maxNewTokens {
        break;
      }
      var offset := cache.Offset();
      assert Row(cache.layers, 0)[0] == SlotRow(cache.layers[0], 0);
      logits := DecodeLogits(m, [next], cache, offset, k);
      k := k + 1;
      step := step + 1;
    }
    events := events + [Done(finish, |generated|)];
    out := GenerationOutput(generated, finish);
  }

  /** The tail the entry points share: prefill the prompt from position `n`, then loop. */
  method PrefillAndLoop(m: Model, prompt: seq<int>, n: nat, cache: ContiguousKvCache, cfg: GenerationConfig,
                        cancel: CancelFlag, poll0: nat, hooks: Hooks)
    returns (out: GenerationOutput, events: seq<StreamEvent>)
    requires n < |prompt| && Ready(m, cache.layers, n)
    modifies cache
    ensures (out, Row(cache.layers, 0))
         == PrefilledRun(m, cfg, hooks, cancel, poll0, prompt, n, Row(old(cache.layers), 0))
    ensures events == EventsOf(out)
    ensures exists k: nat :: k >= |prompt| && Ready(m, cache.layers, k)
  {
    var logits := DecodeLogits(m, prompt[n..], cache, n, n);
    out, events := DecodeLoop(m, cache, logits, cfg.seed, prompt, cfg, cancel, poll0, hooks, |prompt|);
  }

  /** `generate_with`: a cold run. Its output and events are the cache-free reference's. */
  method GenerateWith(m: Model, prompt: seq<int>, cfg: GenerationConfig, cancel: CancelFlag, hooks: Hooks)
    returns (res: Result<GenerationOutput, Error>, events: seq<StreamEvent>)
    requires ValidModel(m)
    ensures Tripped(cancel, 0) ==> res == Err(Canceled) && events == []
    ensures !Tripped(cancel, 0) && prompt == [] ==> res.Err? && res.error.Msg? && events == []
    ensures !Tripped(cancel, 0) && prompt != [] ==>
      && res == Ok(Solo(m, cfg, hooks, cancel, 1, prompt, [], cfg.seed))
      && events == EventsOf(res.value)
    ensures res.Ok? && hooks.constraint.Some? && RespectsMask(cfg.sampling) ==>
      Constrained(hooks.constraint.value, res.value.tokens)
    ensures res.Ok? ==> StoppedByHost(hooks, res.value) && forall t :: t in res.value.tokens ==> t !in cfg.stopTokens
    ensures res.Ok? && cancel.AtPoll? ==>
      res.value == CutAt(Solo(m, cfg, hooks, Never, 1, prompt, [], cfg.seed), 1, cancel.n)
  {
    hide StoppedByHost, Constrained, RespectsMask, CutAt;
    if Tripped(cancel, 0) {
      return Err(Canceled), [];
    }
    if prompt == [] {
      return Err(Msg("generate: empty prompt")), [];
    }
    var cache := new ContiguousKvCache(|m.layers|);
    FreshHoldsNothing(m, cache.layers);
    assert prompt[..0] == [];
    PrefilledRunIsSolo(m, cfg, hooks, cancel, 1, prompt, 0);
    var out, ev := PrefillAndLoop(m, prompt, 0, cache, cfg, cancel, 1, hooks);
    SoloFacts(m, cfg, hooks, cancel, prompt);
    return Ok(out), ev;
  }

  lemma SoloFacts(m: Model, cfg: GenerationConfig, hooks: Hooks, cancel: CancelFlag, prompt: seq<int>)
    requires prompt != []
    ensures var out := Solo(m, cfg, hooks, cancel, 1, prompt, [], cfg.seed);
      && (hooks.constraint.Some? && RespectsMask(cfg.sampling) ==> Constrained(hooks.constraint.value, out.tokens))
      && StoppedByHost(hooks, out) && (forall t :: t in out.tokens ==> t !in cfg.stopTokens)
      && (cancel.AtPoll? ==> out == CutAt(Solo(m, cfg, hooks, Never, 1, prompt, [], cfg.seed), 1, cancel.n))
  {
    hide Solo, RespectsMask;
    if hooks.constraint.Some? && RespectsMask(cfg.sampling) {
      SoloIsConstrained(m, cfg, hooks, cancel, 1, prompt, [], cfg.seed);
    }
    SoloStopsAtHost(m, cfg, hooks, cancel, 1, prompt, [], cfg.seed);
    SoloExcludesStops(m, cfg, hooks, cancel, 1, prompt, [], cfg.seed);
    if cancel.AtPoll? {
      CancelledIsCut(m, cfg, hooks, cancel.n, 1, prompt, cfg.seed);
    }
  }

  /** `generate_with_cache`: the same run over a caller's cache that already holds a prefix of the prompt. */
  method GenerateWithCache(m: Model, prompt: seq<int>, cache: ContiguousKvCache, cfg: GenerationConfig,
                           cancel: CancelFlag, ghost n: nat)
    returns (res: Result<GenerationOutput, Error>, events: seq<StreamEvent>)
    requires Ready(m, cache.layers, n)
    modifies cache
    ensures Tripped(cancel, 0) ==> res == Err(Canceled)
    ensures !Tripped(cancel, 0) ==> (res.Ok? <==> n < |prompt|)
    ensures res.Err? ==> events == [] && cache.layers == old(cache.layers)
    ensures res.Ok? ==> events == EventsOf(res.value)
    ensures res.Ok? && Holds(m, old(cache.layers), prompt[..n]) ==>
      && res.value == Solo(m, cfg, NoHooks, cancel, 1, prompt, [], cfg.seed)
      && Holds(m, cache.layers, prompt + KeptTokens(res.value))
  {
    if Tripped(cancel, 0) {
      return Err(Canceled), [];
    }
    if prompt == [] {
      return Err(Msg("generate_with_cache: empty prompt")), [];
    }
    var offset := cache.Offset();
    assert Row(cache.layers, 0)[0] == SlotRow(cache.layers[0], 0);
    if offset >= |prompt| {
      return Err(Msg("generate_with_cache: the cache leaves no prompt suffix to prefill")), [];
    }
    PrefilledRunIsSolo(m, cfg, NoHooks, cancel, 1, prompt, n);
    var out, ev := PrefillAndLoop(m, prompt, offset, cache, cfg, cancel, 1, NoHooks);
    return Ok(out), ev;
  }
}
