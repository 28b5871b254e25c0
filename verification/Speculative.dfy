/** src/decode/speculative.rs: propose several tokens, verify them in one forward, accept a prefix plus one bonus
    token, roll the caches back. */
module Speculative {
  import opened Prelude
  import opened Attention
  import opened KvCache
  import opened Llama
  import opened CausalLm
  import opened Sampler
  import opened Stream

  datatype SpeculativeConfig = SpeculativeConfig(maxNgram: nat, numDraft: nat)

  datatype SpeculativeStats = SpeculativeStats(forwards: nat, proposed: nat, accepted: nat)

  datatype Acceptance = Accepted(t: int) | Rejected(bonus: int)

  /** The pieces of `core_llm::speculative` the loops call; their code is not part of this model. */
  datatype Core = Core(
    ngramPropose: (seq<int>, nat, nat) -> seq<int>,
    acceptToken: (seq<(int, real)>, seq<(int, real)>, int, real, real) -> Acceptance,
    sampleWeighted: (seq<(int, real)>, real) -> int)

  /** All that is assumed of them: at most `k` drafts are proposed, and an accepted token is the draft. */
  ghost predicate CoreContract(core: Core)
  {
    && (forall h, n, k :: |core.ngramPropose(h, n, k)| <= k)
    && (forall p, q, d, u, v :: core.acceptToken(p, q, d, u, v).Accepted? ==> core.acceptToken(p, q, d, u, v).t == d)
  }

  /** `accept_greedy_run`: how many drafts agree with the target's choices, up to the first divergence. */
  function AcceptGreedyRun(target: seq<int>, drafts: seq<int>): (n: nat)
    requires |target| == |drafts| + 1
    ensures n <= |drafts| && (forall k :: 0 <= k < n ==> target[k] == drafts[k])
    ensures n < |drafts| ==> target[n] != drafts[n]
  {
    if drafts == [] || target[0] != drafts[0] then 0
    else 1 + AcceptGreedyRun(target[1..], drafts[1..])
  }

  /** The token greedy decoding picks after `history`. */
  function GreedyNext(m: Model, cfg: GenerationConfig, history: seq<int>): int
    requires history != []
  {
    cfg.sampling.argmax(Logits(m, history), history, None)
  }

  /** Every committed token is the one greedy decoding picks after the tokens before it. */
  ghost predicate GreedyChain(m: Model, cfg: GenerationConfig, history: seq<int>, committed: seq<int>)
    requires history != []
  {
    forall i :: 0 <= i < |committed| ==> committed[i] == GreedyNext(m, cfg, history + committed[..i])
  }

  /** `decide_greedy`, for any logits the verify pass reported. */
  method DecideGreedy(logitsAll: seq<Vec>, drafts: seq<int>, history: seq<int>, cfg: GenerationConfig, rng: Rng)
    returns (committed: seq<int>, accepted: nat)
    requires |logitsAll| == |drafts| + 1 && Greedy(cfg.sampling)
    ensures accepted <= |drafts| && |committed| == accepted + 1
    ensures committed[..accepted] == drafts[..accepted]
    ensures forall i :: 0 <= i <= accepted ==>
      committed[i] == cfg.sampling.argmax(logitsAll[i], history + committed[..i], None)
    ensures accepted < |drafts| ==> committed[accepted] != drafts[accepted]
  {
    var target: seq<int> := [];
    var hist := history;
    var i := 0;
    while i < |logitsAll|
      invariant 0 <= i <= |logitsAll| && |target| == i
      invariant hist == history + drafts[..Min(i, |drafts|)]
      invariant forall j :: 0 <= j < i ==> target[j] == cfg.sampling.argmax(logitsAll[j], history + drafts[..j], None)
    {
      var (t, _) := Sample(logitsAll[i], hist, cfg.sampling, rng, None);
      target := target + [t];
      if i < |drafts| {
        hist := hist + [drafts[i]];
      }
      i := i + 1;
    }
    accepted := AcceptGreedyRun(target, drafts);
    committed := drafts[..accepted] + [target[accepted]];
    forall j | 0 <= j <= accepted
      ensures committed[j] == cfg.sampling.argmax(logitsAll[j], history + committed[..j], None)
    {
      assert committed[..j] == drafts[..j];
      assert j < accepted ==> target[..accepted][j] == drafts[..accepted][j];
    }
  }

  /** What happens to one draft: the target's shaped distribution after `history`, two uniforms, the verdict. */
  function Verdict(core: Core, m: Model, params: SamplingParams, history: seq<int>, draft: int,
      dist: seq<(int, real)>, rng: Rng)
    : (Acceptance, Rng)
    requires history != []
  {
    var target := params.shaped(Logits(m, history), history);
    var (uA, rngA) := params.nextF32(rng);
    var (uR, rngR) := params.nextF32(rngA);
    (core.acceptToken(target, dist, draft, uA, uR), rngR)
  }

  /** Rejection sampling one position at a time from draft `i` on: the target's logits are recomputed over the
      drafts accepted so far, nothing is batched and nothing past the first rejection is looked at. Returns how
      many drafts were accepted, the token that follows them, and the generator. */
  function OneByOne(core: Core, m: Model, params: SamplingParams, history: seq<int>, drafts: seq<int>,
                    dists: seq<seq<(int, real)>>, i: nat, rng: Rng): (nat, int, Rng)
    requires history != [] && |dists| == |drafts| && i <= |drafts|
    decreases |drafts| - i
  {
    if i == |drafts| then
      var (u, rng') := params.nextF32(rng);
      (i, core.sampleWeighted(params.shaped(Logits(m, history + drafts), history + drafts), u), rng')
    else
      var (verdict, rng') := Verdict(core, m, params, history + drafts[..i], drafts[i], dists[i], rng);
      match verdict
      case Rejected(bonus) => (i, bonus, rng')
      case Accepted(_) => OneByOne(core, m, params, history, drafts, dists, i + 1, rng')
  }

  /** Accept or reject one draft against the row of the verify pass that scores it. */
  method Judge(core: Core, ghost m: Model, params: SamplingParams, row: Vec, history: seq<int>, draft: int,
               dist: seq<(int, real)>, rng0: Rng)
    returns (verdict: Acceptance, rng: Rng)
    requires history != [] && row == Logits(m, history) && CoreContract(core)
    ensures verdict.Accepted? ==> verdict.t == draft
    ensures (verdict, rng) == Verdict(core, m, params, history, draft, dist, rng0)
  {
    var target := params.shaped(row, history);
    var (uA, rngA) := params.nextF32(rng0);
    var (uR, rngR) := params.nextF32(rngA);
    verdict, rng := core.acceptToken(target, dist, draft, uA, uR), rngR;
  }

  /** `decide_stochastic` over the rows of one batched verify pass: accept drafts one by one; the first rejection,
      or the position after the last draft, supplies the bonus token. It is the one-by-one sampler. */
  method DecideStochastic(core: Core, ghost m: Model, logitsAll: seq<Vec>, drafts: seq<int>,
      draftDists: seq<seq<(int, real)>>, history: seq<int>, cfg: GenerationConfig, rng0: Rng)
    returns (committed: seq<int>, accepted: nat, rng: Rng)
    requires |logitsAll| == |drafts| + 1 && |draftDists| == |drafts| && CoreContract(core)
    requires history != [] && forall i :: 0 <= i <= |drafts| ==> logitsAll[i] == Logits(m, history + drafts[..i])
    ensures accepted <= |drafts| && |committed| == accepted + 1
    ensures committed[..accepted] == drafts[..accepted]
    ensures OneByOne(core, m, cfg.sampling, history, drafts, draftDists, 0, rng0)
        == (accepted, committed[accepted], rng)
  {
    hide Logits, Verdict;
    committed, accepted, rng := [], 0, rng0;
    var hist := history;
    var rejected := false;
    var i := 0;
    ghost var goal := OneByOne(core, m, cfg.sampling, history, drafts, draftDists, 0, rng0);
    while i < |drafts| && !rejected
      invariant 0 <= i <= |drafts|
      invariant !rejected ==> accepted == i && committed == drafts[..i] && hist == history + drafts[..i]
      invariant !rejected ==> goal == OneByOne(core, m, cfg.sampling, history, drafts, draftDists, i, rng)
      invariant rejected ==> accepted == i - 1 && |committed| == i && committed[..i - 1] == drafts[..i - 1]
      invariant rejected ==> goal == (accepted, committed[accepted], rng)
    {
      var verdict;
      verdict, rng := Judge(core, m, cfg.sampling, logitsAll[i], hist, drafts[i], draftDists[i], rng);
      match verdict {
        case Accepted(t) =>
          assert t == drafts[i];
          committed := committed + [t];
          accepted := accepted + 1;
          assert drafts[..i + 1] == drafts[..i] + [drafts[i]];
          hist := hist + [t];
        case Rejected(bonus) =>
          committed := committed + [bonus];
          rejected := true;
      }
      i := i + 1;
    }
    if !rejected {
      assert drafts[..i] == drafts;
      var target := cfg.sampling.shaped(logitsAll[|drafts|], hist);
      var (u, rng') := cfg.sampling.nextF32(rng);
      rng := rng';
      committed := committed + [core.sampleWeighted(target, u)];
    }
  }

  function PointMassDists(drafts: seq<int>): (q: seq<seq<(int, real)>>)
    ensures |q| == |drafts|
    ensures forall i :: 0 <= i < |drafts| ==> q[i] == [(drafts[i], 1.0)]
  {
    seq(|drafts|, i requires 0 <= i < |drafts| => [(drafts[i], 1.0)])
  }

  /** The history without its last token: what the caches hold between steps. */
  function ButLast(history: seq<int>): seq<int>
    requires history != []
  {
    history[..|history| - 1]
  }

  /** One verify step: the target scores the last token and the drafts in a single forward, a prefix is accepted,
      and the cache is rolled back. The cache goes from the history but its last token to the new history but its
      last token, in both acceptance modes; the committed tokens are plain greedy decoding's, or those of the
      one-by-one rejection sampler, which uses no cache and no batch. */
  method VerifyAndRollBack(core: Core, m: Model, cache: ContiguousKvCache, history: seq<int>, drafts: seq<int>,
                           draftDists: seq<seq<(int, real)>>, cfg: GenerationConfig, rng0: Rng)
    returns (committed: seq<int>, accepted: nat, rng: Rng)
    requires history != [] && Holds(m, cache.layers, ButLast(history))
    requires |draftDists| == |drafts| || Greedy(cfg.sampling)
    requires CoreContract(core)
    modifies cache
    ensures accepted <= |drafts| && |committed| == accepted + 1
    ensures committed[..accepted] == drafts[..accepted]
    ensures Holds(m, cache.layers, ButLast(history + committed))
    ensures Greedy(cfg.sampling) ==> rng == rng0 && GreedyChain(m, cfg, history, committed)
    ensures !Greedy(cfg.sampling) ==>
      OneByOne(core, m, cfg.sampling, history, drafts, draftDists, 0, rng0) == (accepted, committed[accepted], rng)
    ensures Decide(core, m, cfg, history, drafts, draftDists, rng0) == (accepted, committed[accepted], rng)
  {
    hide Holds, OneByOne, GreedyOneByOne;
    var verify := [history[|history| - 1]] + drafts;
    ghost var held := ButLast(history);
    OffsetIsHeld(m, cache, held);
    var baseOffset := cache.Offset();
    var logitsAll := ExtendAll(m, verify, cache, held);
    assert forall i :: 0 <= i <= |drafts| ==> held + verify[..i + 1] == history + drafts[..i];
    rng := rng0;
    if Greedy(cfg.sampling) {
      committed, accepted := DecideGreedy(logitsAll, drafts, history, cfg, rng);
      forall i | 0 <= i < |committed| ensures committed[i] == GreedyNext(m, cfg, history + committed[..i]) {
        assert committed[..i] == drafts[..i];
      }
      GreedyDecides(m, cfg, history, drafts, committed, accepted, 0);
    } else {
      committed, accepted, rng := DecideStochastic(core, m, logitsAll, drafts, draftDists, history, cfg, rng);
    }
    RollBackTo(m, cache, baseOffset, history, drafts, committed, accepted);
  }

  /** Cutting the cache after the accepted drafts leaves the new history but its last token. */
  lemma RollBack(m: Model, slots: Slots, history: seq<int>, drafts: seq<int>, committed: seq<int>, accepted: nat)
    requires history != [] && accepted <= |drafts| && |committed| == accepted + 1
    requires committed[..accepted] == drafts[..accepted]
    requires Holds(m, slots, ButLast(history) + ([history[|history| - 1]] + drafts))
    ensures Shaped(slots, 1, |history| + |drafts|)
    ensures Holds(m, Truncated(slots, |history| + accepted), ButLast(history + committed))
  {
    hide Holds, Shaped, Truncated;
    var fed := ButLast(history) + ([history[|history| - 1]] + drafts);
    assert fed == history + drafts;
    TruncateHolds(m, slots, fed, |history| + accepted);
    assert fed[..|history| + accepted] == history + drafts[..accepted];
    assert ButLast(history + committed) == history + committed[..accepted];
  }

  /** Truncating to the accepted drafts, for a cache fed the last token and every draft. */
  method RollBackTo(m: Model, cache: ContiguousKvCache, base: nat, history: seq<int>, ghost drafts: seq<int>,
                    ghost committed: seq<int>, accepted: nat)
    requires history != [] && accepted <= |drafts| && |committed| == accepted + 1
    requires committed[..accepted] == drafts[..accepted] && base + 1 == |history|
    requires Holds(m, cache.layers, ButLast(history) + ([history[|history| - 1]] + drafts))
    modifies cache
    ensures Holds(m, cache.layers, ButLast(history + committed))
  {
    hide Holds, Shaped, Truncated;
    RollBack(m, cache.layers, history, drafts, committed, accepted);
    var _ := cache.Truncate(base + 1 + accepted);
  }

  /** What committing a round does: tokens are taken until a stop token, the budget, or the end of the round. */
  function CommitRound(cfg: GenerationConfig, generated: seq<int>, round: seq<int>)
      : (r: (seq<int>, Option<FinishReason>))
    ensures generated <= r.0 <= generated + round
    ensures r.1.None? ==> r.0 == generated + round
    ensures r.1.Some? ==> r.1.value == StopToken || r.1.value == MaxTokens
    ensures r.1 == Some(StopToken) ==> |r.0| < |generated| + |round|
    ensures r.1 == Some(MaxTokens) ==> |r.0| >= cfg.maxNewTokens
    ensures r.1.None? && round != [] ==> |r.0| < cfg.maxNewTokens
    decreases |round|
  {
    if round == [] then (generated, None)
    else if round[0] in cfg.stopTokens then (generated, Some(StopToken))
    else if |generated| + 1 >= cfg.maxNewTokens then (generated + [round[0]], Some(MaxTokens))
    else CommitRound(cfg, generated + [round[0]], round[1..])
  }

  /** A round of greedy-chained tokens moves the cache-free reference forward by exactly that round. */
  lemma {:induction false} GreedyRoundIsSolo(m: Model, cfg: GenerationConfig, prompt: seq<int>, generated: seq<int>,
                                             round: seq<int>, rng: Rng)
    requires prompt != [] && Greedy(cfg.sampling) && |generated| < cfg.maxNewTokens
    requires GreedyChain(m, cfg, prompt + generated, round)
    ensures var (g, finish) := CommitRound(cfg, generated, round);
      Solo(m, cfg, NoHooks, Never, 1, prompt, generated, rng)
      == if finish.Some? then GenerationOutput(g, finish.value) else Solo(m, cfg, NoHooks, Never, 1, prompt, g, rng)
    decreases |round|
  {
    if round != [] {
      assert prompt + generated + round[..0] == prompt + generated;
      assert round[0] == GreedyNext(m, cfg, prompt + generated + round[..0]);
      if round[0] !in cfg.stopTokens && |generated| + 1 < cfg.maxNewTokens {
        var generated' := generated + [round[0]];
        forall i | 0 <= i < |round| - 1
          ensures round[1..][i] == GreedyNext(m, cfg, prompt + generated' + round[1..][..i])
        {
          assert round[i + 1] == GreedyNext(m, cfg, prompt + generated + round[..i + 1]);
          assert prompt + generated' + round[1..][..i] == prompt + generated + round[..i + 1];
        }
        GreedyRoundIsSolo(m, cfg, prompt, generated', round[1..], rng);
      }
    }
  }

  /** The commit loop of both generators. */
  method Commit(cfg: GenerationConfig, round: seq<int>, generated0: seq<int>, history0: seq<int>)
    returns (generated: seq<int>, history: seq<int>, finish: Option<FinishReason>, events: seq<StreamEvent>)
    requires |generated0| < cfg.maxNewTokens
    ensures (generated, finish) == CommitRound(cfg, generated0, round)
    ensures history == history0 + generated[|generated0|..]
    ensures TokenEvents(generated0) + events == TokenEvents(generated)
  {
    generated, history, finish, events := generated0, history0, None, [];
    assert round[0..] == round;
    var i := 0;
    while i < |round| && finish.None?
      invariant 0 <= i <= |round|
      invariant generated0 <= generated && history == history0 + generated[|generated0|..]
      invariant TokenEvents(generated0) + events == TokenEvents(generated)
      invariant finish.None? ==> |generated| < cfg.maxNewTokens
      invariant finish.None? ==> CommitRound(cfg, generated0, round) == CommitRound(cfg, generated, round[i..])
      invariant finish.Some? ==> CommitRound(cfg, generated0, round) == (generated, finish)
    {
      var t := round[i];
      assert round[i..][1..] == round[i + 1..];
      if t in cfg.stopTokens {
        finish := Some(StopToken);
      } else {
        TokenEventsSnoc(generated, t);
        events := events + [Token(t, |generated|)];
        generated := generated + [t];
        history := history + [t];
        if |generated| >= cfg.maxNewTokens {
          finish := Some(MaxTokens);
        }
      }
      i := i + 1;
    }
  }

  /** The reference greedy run: the uncancelled cold decode. */
  function Reference(m: Model, cfg: GenerationConfig, prompt: seq<int>): GenerationOutput
    requires prompt != []
  {
    Solo(m, cfg, NoHooks, Never, 1, prompt, [], cfg.seed)
  }

  // ----- with the usual acceptance rule -----

  function Weight(dist: seq<(int, real)>, t: int): real
  {
    if dist == [] then 0.0 else (if dist[0].0 == t then dist[0].1 else 0.0) + Weight(dist[1..], t)
  }

  function Total(dist: seq<(int, real)>): real
  {
    if dist == [] then 0.0 else dist[0].1 + Total(dist[1..])
  }

  /** The usual rejection rule: a draft passes when the first uniform times its proposal probability is at most its
      target probability. Both distributions come unnormalised. */
  ghost predicate UsualRule(core: Core)
  {
    forall p, q, d, u, v ::
      core.acceptToken(p, q, d, u, v).Accepted? <==> u * Weight(q, d) * Total(p) <= Weight(p, d) * Total(q)
  }

  /** The generator after `k` draws. */
  function After(params: SamplingParams, rng: Rng, k: nat): Rng
  {
    if k == 0 then rng else params.nextF32(After(params, rng, k - 1)).1
  }

  /** Draft `i` passes with uniform number `2·i` of the generator, against the target's distribution over the history
      and the drafts before it. */
  predicate Passes(m: Model, params: SamplingParams, history: seq<int>, drafts: seq<int>, dists: seq<seq<(int, real)>>,
                   rng: Rng, i: nat)
    requires history != [] && i < |drafts| == |dists|
  {
    var u := params.nextF32(After(params, rng, 2 * i)).0;
    var p := params.shaped(Logits(m, history + drafts[..i]), history + drafts[..i]);
    u * Weight(dists[i], drafts[i]) * Total(p) <= Weight(p, drafts[i]) * Total(dists[i])
  }

  /** Under the usual rule the one-by-one sampler accepts exactly up to the first draft that does not pass; every draft
      it looks at uses two uniforms, and the token after an accepted run one more. */
  lemma {:induction false} AcceptsWhilePassing(core: Core, m: Model, params: SamplingParams, history: seq<int>,
                                               drafts: seq<int>, dists: seq<seq<(int, real)>>, i: nat, rng: Rng)
    requires UsualRule(core) && history != [] && |dists| == |drafts| && i <= |drafts|
    ensures var (n, _, rng') := OneByOne(core, m, params, history, drafts, dists, i, After(params, rng, 2 * i));
      && i <= n <= |drafts|
      && (forall j :: i <= j < n ==> Passes(m, params, history, drafts, dists, rng, j))
      && (n < |drafts| ==> !Passes(m, params, history, drafts, dists, rng, n))
      && rng' == After(params, rng, if n < |drafts| then 2 * n + 2 else 2 * n + 1)
    decreases |drafts| - i
  {
    hide Logits, Weight, Total;
    var at := After(params, rng, 2 * i);
    assert After(params, rng, 2 * i + 1) == params.nextF32(at).1;
    assert After(params, rng, 2 * i + 2) == params.nextF32(After(params, rng, 2 * i + 1)).1;
    if i < |drafts| {
      var (verdict, rng') := Verdict(core, m, params, history + drafts[..i], drafts[i], dists[i], at);
      assert verdict.Accepted? <==> Passes(m, params, history, drafts, dists, rng, i);
      if verdict.Accepted? {
        AcceptsWhilePassing(core, m, params, history, drafts, dists, i + 1, rng);
      }
    }
  }

  // ----- the run without caches and without batches -----

  /** Where drafts come from. */
  datatype Proposer = Lookup(maxNgram: nat) | DraftModel(draft: Model)

  /** What a proposer hands to the acceptance test: the drafts, the distribution each was drawn from, the generator. */
  datatype Proposal = Proposal(drafts: seq<int>, dists: seq<seq<(int, real)>>, rng: Rng)

  /** The draft model drawing one token after another, each from a full recompute over the history and the drafts so
      far: the drafts and the generator. */
  function DraftRun(draft: Model, cfg: GenerationConfig, history: seq<int>, n: nat, rng: Rng): (r: (seq<int>, Rng))
    requires history != []
    ensures |r.0| == n
  {
    if n == 0 then ([], rng)
    else
      var (front, rng') := DraftRun(draft, cfg, history, n - 1, rng);
      var (d, rng'') := Sample(Logits(draft, history + front), history + front, cfg.sampling, rng', None);
      (front + [d], rng'')
  }

  /** The draft model's own shaped distribution at each position. */
  function DraftDists(draft: Model, cfg: GenerationConfig, history: seq<int>, drafts: seq<int>)
      : (q: seq<seq<(int, real)>>)
    requires history != []
    ensures |q| == |drafts|
    ensures forall i :: 0 <= i < |drafts| ==>
      q[i] == cfg.sampling.shaped(Logits(draft, history + drafts[..i]), history + drafts[..i])
  {
    seq(|drafts|, i requires 0 <= i < |drafts| =>
      cfg.sampling.shaped(Logits(draft, history + drafts[..i]), history + drafts[..i]))
  }

  function Propose(core: Core, from: Proposer, cfg: GenerationConfig, history: seq<int>, k: nat, rng: Rng)
      : (p: Proposal)
    requires history != []
    ensures |p.dists| == |p.drafts|
  {
    match from
    case Lookup(maxNgram) =>
      var drafts := if k == 0 then [] else core.ngramPropose(history, maxNgram, k);
      Proposal(drafts, PointMassDists(drafts), rng)
    case DraftModel(draft) =>
      var (drafts, rng') := DraftRun(draft, cfg, history, k, rng);
      Proposal(drafts, DraftDists(draft, cfg, history, drafts), rng')
  }

  /** Greedy acceptance one position at a time: how many drafts agree, and the target's own choice after them. */
  function GreedyOneByOne(m: Model, cfg: GenerationConfig, history: seq<int>, drafts: seq<int>, i: nat): (r: (nat, int))
    requires history != [] && i <= |drafts|
    ensures i <= r.0 <= |drafts|
    decreases |drafts| - i
  {
    var t := GreedyNext(m, cfg, history + drafts[..i]);
    if i < |drafts| && drafts[i] == t then GreedyOneByOne(m, cfg, history, drafts, i + 1) else (i, t)
  }

  /** Accept or reject the drafts one by one, in either mode. */
  function Decide(core: Core, m: Model, cfg: GenerationConfig, history: seq<int>, drafts: seq<int>,
                  dists: seq<seq<(int, real)>>, rng: Rng): (r: (nat, int, Rng))
    requires history != [] && (|dists| == |drafts| || Greedy(cfg.sampling))
    ensures r.0 <= |drafts|
  {
    if Greedy(cfg.sampling) then
      var (n, t) := GreedyOneByOne(m, cfg, history, drafts, 0);
      (n, t, rng)
    else
      OneByOneBounds(core, m, cfg.sampling, history, drafts, dists, 0, rng);
      OneByOne(core, m, cfg.sampling, history, drafts, dists, 0, rng)
  }

  lemma {:induction false} OneByOneBounds(core: Core, m: Model, params: SamplingParams, history: seq<int>,
                                          drafts: seq<int>, dists: seq<seq<(int, real)>>, i: nat, rng: Rng)
    requires history != [] && |dists| == |drafts| && i <= |drafts|
    ensures i <= OneByOne(core, m, params, history, drafts, dists, i, rng).0 <= |drafts|
    decreases |drafts| - i
  {
    if i < |drafts| {
      var (verdict, rng') := Verdict(core, m, params, history + drafts[..i], drafts[i], dists[i], rng);
      if verdict.Accepted? {
        OneByOneBounds(core, m, params, history, drafts, dists, i + 1, rng');
      }
    }
  }

  /** The rounds that follow once `generated` is committed: propose, decide one by one, commit. */
  function Rounds(core: Core, m: Model, from: Proposer, cfg: GenerationConfig, numDraft: nat, cancel: CancelFlag,
                  poll: nat, prompt: seq<int>, generated: seq<int>, rng: Rng, stats: SpeculativeStats)
      : (GenerationOutput, SpeculativeStats)
    requires prompt != []
    decreases cfg.maxNewTokens - |generated|
  {
    if |generated| >= cfg.maxNewTokens then (GenerationOutput(generated, MaxTokens), stats)
    else if Tripped(cancel, poll) then (GenerationOutput(generated, Cancelled), stats)
    else
      var history := prompt + generated;
      var p := Propose(core, from, cfg, history, Min(numDraft, cfg.maxNewTokens - |generated| - 1), rng);
      var (n, bonus, rng') := Decide(core, m, cfg, history, p.drafts, p.dists, p.rng);
      var (g, finish) := CommitRound(cfg, generated, p.drafts[..n] + [bonus]);
      var stats' := SpeculativeStats(stats.forwards + 1, stats.proposed + |p.drafts|, stats.accepted + n);
      match finish
      case Some(reason) => (GenerationOutput(g, reason), stats')
      case None => Rounds(core, m, from, cfg, numDraft, cancel, poll + 1, prompt, g, rng', stats')
  }

  /** The whole speculative run from the seed, with its first token drawn as in plain decoding. */
  function RoundsFromSeed(core: Core, m: Model, from: Proposer, cfg: GenerationConfig, numDraft: nat,
                          cancel: CancelFlag, prompt: seq<int>): (GenerationOutput, SpeculativeStats)
    requires prompt != []
  {
    if cfg.maxNewTokens == 0 then (GenerationOutput([], MaxTokens), SpeculativeStats(0, 0, 0))
    else
      var (first, rng) := Sample(Logits(m, prompt), prompt, cfg.sampling, cfg.seed, None);
      if first in cfg.stopTokens then (GenerationOutput([], StopToken), SpeculativeStats(1, 0, 0))
      else Rounds(core, m, from, cfg, numDraft, cancel, 1, prompt, [first], rng, SpeculativeStats(1, 0, 0))
  }

  /** A decision reached over a batched pass is the one reached one by one. */
  lemma {:induction false} GreedyDecides(m: Model, cfg: GenerationConfig, history: seq<int>, drafts: seq<int>,
                                         committed: seq<int>, accepted: nat, i: nat)
    requires history != [] && accepted <= |drafts| && |committed| == accepted + 1 && i <= accepted
    requires committed[..accepted] == drafts[..accepted] && GreedyChain(m, cfg, history, committed)
    requires accepted < |drafts| ==> committed[accepted] != drafts[accepted]
    ensures GreedyOneByOne(m, cfg, history, drafts, i) == (accepted, committed[accepted])
    decreases accepted - i
  {
    hide GreedyNext;
    assert committed[..i] == drafts[..i] by {
      assert committed[..accepted][..i] == committed[..i] && drafts[..accepted][..i] == drafts[..i];
    }
    assert committed[i] == GreedyNext(m, cfg, history + drafts[..i]);
    if i < accepted {
      assert committed[..accepted][i] == drafts[..accepted][i];
      GreedyDecides(m, cfg, history, drafts, committed, accepted, i + 1);
    }
  }

  /** One round of the loop is one round of the reference. */
  lemma RoundTaken(core: Core, m: Model, from: Proposer, cfg: GenerationConfig, numDraft: nat, cancel: CancelFlag,
                   poll: nat, prompt: seq<int>, generated: seq<int>, rng: Rng, stats: SpeculativeStats,
                   drafts: seq<int>, dists: seq<seq<(int, real)>>, rngD: Rng,
                   committed: seq<int>, accepted: nat, rng': Rng, g: seq<int>, finish: Option<FinishReason>)
    requires prompt != [] && |generated| < cfg.maxNewTokens && !Tripped(cancel, poll)
    requires
      var p := Propose(core, from, cfg, prompt + generated, Min(numDraft, cfg.maxNewTokens - |generated| - 1), rng);
      drafts == p.drafts && rngD == p.rng && (Greedy(cfg.sampling) || dists == p.dists)
    requires accepted <= |drafts| && |committed| == accepted + 1 && committed[..accepted] == drafts[..accepted]
    requires Decide(core, m, cfg, prompt + generated, drafts, dists, rngD) == (accepted, committed[accepted], rng')
    requires CommitRound(cfg, generated, committed) == (g, finish)
    ensures var stats' := SpeculativeStats(stats.forwards + 1, stats.proposed + |drafts|, stats.accepted + accepted);
      Rounds(core, m, from, cfg, numDraft, cancel, poll, prompt, generated, rng, stats)
      == match finish
         case Some(reason) => (GenerationOutput(g, reason), stats')
         case None => Rounds(core, m, from, cfg, numDraft, cancel, poll + 1, prompt, g, rng', stats')
  {
    hide Propose, OneByOne, GreedyOneByOne;
    assert committed == drafts[..accepted] + [committed[accepted]];
  }

  lemma RoundsEnd(core: Core, m: Model, from: Proposer, cfg: GenerationConfig, numDraft: nat, cancel: CancelFlag,
                  poll: nat, prompt: seq<int>, generated: seq<int>, rng: Rng, stats: SpeculativeStats,
                  finish: FinishReason)
    requires prompt != []
    requires
      if |generated| >= cfg.maxNewTokens then finish == MaxTokens else finish == Cancelled && Tripped(cancel, poll)
    ensures Rounds(core, m, from, cfg, numDraft, cancel, poll, prompt, generated, rng, stats)
         == (GenerationOutput(generated, finish), stats)
  {
  }

  /** What a speculative run promises about its output, in either acceptance mode. */
  ghost predicate SpeculativeRun(m: Model, prompt: seq<int>, cfg: GenerationConfig, cancel: CancelFlag,
                                 out: GenerationOutput, stats: SpeculativeStats, events: seq<StreamEvent>)
    requires prompt != []
  {
    && events == EventsOf(out)
    && |out.tokens| <= cfg.maxNewTokens && stats.forwards <= cfg.maxNewTokens && stats.accepted <= stats.proposed
    && (|out.tokens| == stats.forwards + stats.accepted <==> out.finishReason != StopToken)
    && (out.finishReason == StopToken ==> |out.tokens| < stats.forwards + stats.accepted)
    && (out.finishReason == MaxTokens ==> |out.tokens| == cfg.maxNewTokens)
    && (out.finishReason == Cancelled ==> cancel.AtPoll?)
    && (Greedy(cfg.sampling) && out.finishReason != Cancelled ==> out == Reference(m, cfg, prompt))
    && (Greedy(cfg.sampling) ==> out.tokens <= Reference(m, cfg, prompt).tokens)
  }

  /** The state at the head of the speculative loop. */
  ghost predicate LoopHead(m: Model, prompt: seq<int>, cfg: GenerationConfig, rng: Rng,
                           generated: seq<int>, history: seq<int>, stats: SpeculativeStats)
    requires prompt != []
  {
    && 0 < |generated| <= cfg.maxNewTokens && history == prompt + generated
    && |generated| == stats.forwards + stats.accepted && stats.accepted <= stats.proposed
    && (Greedy(cfg.sampling) ==> Reference(m, cfg, prompt) == Solo(m, cfg, NoHooks, Never, 1, prompt, generated, rng))
  }

  /** The first token, sampled from the prefill logits as in plain decoding. */
  lemma FirstToken(m: Model, cfg: GenerationConfig, prompt: seq<int>)
    requires prompt != [] && cfg.maxNewTokens > 0
    ensures var (first, rng) := Sample(Logits(m, prompt), prompt, cfg.sampling, cfg.seed, None);
      if first in cfg.stopTokens then Reference(m, cfg, prompt) == GenerationOutput([], StopToken)
      else LoopHead(m, prompt, cfg, rng, [first], prompt + [first], SpeculativeStats(1, 0, 0))
  {
    assert prompt + [] == prompt;
    assert [] + [Sample(Logits(m, prompt), prompt, cfg.sampling, cfg.seed, None).0]
        == [Sample(Logits(m, prompt), prompt, cfg.sampling, cfg.seed, None).0];
  }

  /** One round keeps the loop head, or ends the run as promised. */
  lemma RoundStep(m: Model, prompt: seq<int>, cfg: GenerationConfig, cancel: CancelFlag, rng: Rng, rng': Rng,
                  generated: seq<int>, history: seq<int>, stats: SpeculativeStats,
                  drafts: seq<int>, committed: seq<int>, accepted: nat)
    requires prompt != [] && LoopHead(m, prompt, cfg, rng, generated, history, stats)
    requires |generated| < cfg.maxNewTokens && |generated| + |drafts| + 1 <= cfg.maxNewTokens
    requires accepted <= |drafts| && |committed| == accepted + 1
    requires Greedy(cfg.sampling) ==> rng' == rng && GreedyChain(m, cfg, history, committed)
    ensures var (g, finish) := CommitRound(cfg, generated, committed);
      var stats' := SpeculativeStats(stats.forwards + 1, stats.proposed + |drafts|, stats.accepted + accepted);
      if finish.Some?
      then SpeculativeRun(m, prompt, cfg, cancel, GenerationOutput(g, finish.value), stats',
        EventsOf(GenerationOutput(g, finish.value)))
      else LoopHead(m, prompt, cfg, rng', g, prompt + g, stats')
  {
    if Greedy(cfg.sampling) {
      GreedyRoundIsSolo(m, cfg, prompt, generated, committed, rng);
    }
  }

  /** Leaving the loop at its head: cancelled, or with the budget filled. */
  lemma HeadExit(m: Model, prompt: seq<int>, cfg: GenerationConfig, cancel: CancelFlag, rng: Rng,
                 generated: seq<int>, history: seq<int>, stats: SpeculativeStats, finish: FinishReason)
    requires prompt != [] && LoopHead(m, prompt, cfg, rng, generated, history, stats)
    requires (finish == MaxTokens && |generated| == cfg.maxNewTokens) || (finish == Cancelled && cancel.AtPoll?)
    ensures SpeculativeRun(m, prompt, cfg, cancel, GenerationOutput(generated, finish), stats,
                           EventsOf(GenerationOutput(generated, finish)))
  {
    if Greedy(cfg.sampling) {
      SoloWithinBudget(m, cfg, NoHooks, Never, 1, prompt, generated, rng);
    }
  }

  /** A zero budget, and a stop token as the very first sample, end the run before the loop. */
  lemma EarlyExits(m: Model, prompt: seq<int>, cfg: GenerationConfig, cancel: CancelFlag)
    requires prompt != []
    ensures cfg.maxNewTokens == 0 ==>
      SpeculativeRun(m, prompt, cfg, cancel, GenerationOutput([], MaxTokens), SpeculativeStats(0, 0, 0),
        [Done(MaxTokens, 0)])
    ensures
      cfg.maxNewTokens > 0 && Sample(Logits(m, prompt), prompt, cfg.sampling, cfg.seed, None).0 in cfg.stopTokens ==>
      SpeculativeRun(m, prompt, cfg, cancel, GenerationOutput([], StopToken), SpeculativeStats(1, 0, 0),
        [Done(StopToken, 0)])
  {
    assert TokenEvents([]) == [];
    if cfg.maxNewTokens > 0 {
      FirstToken(m, cfg, prompt);
    }
  }

  lemma HeadFacts(m: Model, prompt: seq<int>, cfg: GenerationConfig, rng: Rng,
                  generated: seq<int>, history: seq<int>, stats: SpeculativeStats)
    requires prompt != [] && LoopHead(m, prompt, cfg, rng, generated, history, stats)
    ensures 0 < |generated| <= cfg.maxNewTokens && history == prompt + generated
  {
  }

  /** One round of the loop after the drafts are known: verify, roll back, commit. Either the loop head holds
      again with the cache holding the new history but its last token, or the run is over as promised. */
  method VerifyAndCommit(core: Core, m: Model, cache: ContiguousKvCache, prompt: seq<int>, cfg: GenerationConfig,
                         cancel: CancelFlag, drafts: seq<int>, draftDists: seq<seq<(int, real)>>,
                         generated0: seq<int>, stats0: SpeculativeStats, rng0: Rng, rngD: Rng)
    returns (generated: seq<int>, stats: SpeculativeStats, rng: Rng, stopped: Option<FinishReason>,
             events: seq<StreamEvent>, committed: seq<int>, accepted: nat)
    requires prompt != [] && LoopHead(m, prompt, cfg, rng0, generated0, prompt + generated0, stats0)
    requires Holds(m, cache.layers, ButLast(prompt + generated0))
    requires |generated0| + |drafts| + 1 <= cfg.maxNewTokens
    requires |draftDists| == |drafts| || Greedy(cfg.sampling)
    requires Greedy(cfg.sampling) ==> rngD == rng0
    requires CoreContract(core)
    modifies cache
    ensures accepted <= |drafts| && |committed| == accepted + 1 && committed[..accepted] == drafts[..accepted]
    ensures TokenEvents(generated0) + events == TokenEvents(generated)
    ensures stopped.Some? ==>
      var out := GenerationOutput(generated, stopped.value);
      SpeculativeRun(m, prompt, cfg, cancel, out, stats, EventsOf(out))
    ensures stopped.None? ==>
      && generated == generated0 + committed
      && LoopHead(m, prompt, cfg, rng, generated, prompt + generated, stats)
      && Holds(m, cache.layers, ButLast(prompt + generated))
    ensures Decide(core, m, cfg, prompt + generated0, drafts, draftDists, rngD) == (accepted, committed[accepted], rng)
    ensures CommitRound(cfg, generated0, committed) == (generated, stopped)
    ensures stats
         == SpeculativeStats(stats0.forwards + 1, stats0.proposed + |drafts|, stats0.accepted + accepted)
  {
    hide Holds, LoopHead, SpeculativeRun, GreedyChain, CommitRound, OneByOne, Decide;
    var history := prompt + generated0;
    committed, accepted, rng := VerifyAndRollBack(core, m, cache, history, drafts, draftDists, cfg, rngD);
    RoundStep(m, prompt, cfg, cancel, rng0, rng, generated0, history, stats0, drafts, committed, accepted);
    stats := SpeculativeStats(stats0.forwards + 1, stats0.proposed + |drafts|, stats0.accepted + accepted);
    generated, history, stopped, events := Commit(cfg, committed, generated0, history);
    assert prompt + generated0 + committed == prompt + (generated0 + committed);
  }

  /** `generate_prompt_lookup`. */
  method GeneratePromptLookup(core: Core, m: Model, prompt: seq<int>, cfg: GenerationConfig, spec: SpeculativeConfig,
                              cancel: CancelFlag)
    returns (res: Result<(GenerationOutput, SpeculativeStats), Error>, events: seq<StreamEvent>)
    requires ValidModel(m) && CoreContract(core)
    ensures Tripped(cancel, 0) ==> res == Err(Canceled) && events == []
    ensures !Tripped(cancel, 0) && prompt == [] ==> res.Err? && res.error.Msg? && events == []
    ensures !Tripped(cancel, 0) && prompt != [] ==>
      res.Ok? && SpeculativeRun(m, prompt, cfg, cancel, res.value.0, res.value.1, events)
    ensures res.Ok? ==>
      res.value == RoundsFromSeed(core, m, Lookup(spec.maxNgram), cfg, spec.numDraft, cancel, prompt)
  {
    hide Holds, LoopHead, SpeculativeRun, CommitRound, GreedyChain, Rounds, Decide, Logits, Sample, TokenEvents,
      ValidModel;
    if Tripped(cancel, 0) {
      return Err(Canceled), [];
    }
    if prompt == [] {
      return Err(Msg("generate_prompt_lookup: empty prompt")), [];
    }
    EarlyExits(m, prompt, cfg, cancel);
    var stats := SpeculativeStats(0, 0, 0);
    if cfg.maxNewTokens == 0 {
      return Ok((GenerationOutput([], MaxTokens), stats)), [Done(MaxTokens, 0)];
    }
    var rng := cfg.seed;
    var cache := new ContiguousKvCache(|m.layers|);
    FreshHoldsNothing(m, cache.layers);
    assert [] + prompt == prompt;
    var logitsLast := Extend(m, prompt, cache, []);
    stats := stats.(forwards := 1);
    var history := prompt;
    FirstToken(m, cfg, prompt);
    var (first, rng1) := Sample(logitsLast, history, cfg.sampling, rng, None);
    rng := rng1;
    if first in cfg.stopTokens {
      return Ok((GenerationOutput([], StopToken), stats)), [Done(StopToken, 0)];
    }
    events := [Token(first, 0)];
    var generated := [first];
    history := history + [first];
    assert ButLast(history) == prompt;
    var finish := MaxTokens;
    var poll := 1;
    ghost var goal := Rounds(core, m, Lookup(spec.maxNgram), cfg, spec.numDraft, cancel, 1, prompt, generated, rng,
                             stats);
    while |generated| < cfg.maxNewTokens
      invariant LoopHead(m, prompt, cfg, rng, generated, history, stats)
      invariant history == prompt + generated
      invariant Holds(m, cache.layers, ButLast(history))
      invariant events == TokenEvents(generated) && finish == MaxTokens
      invariant goal == Rounds(core, m, Lookup(spec.maxNgram), cfg, spec.numDraft, cancel, poll, prompt, generated, rng,
                               stats)
      decreases cfg.maxNewTokens - |generated|
    {
      if Tripped(cancel, poll) {
        finish := Cancelled;
        break;
      }
      poll := poll + 1;
      HeadFacts(m, prompt, cfg, rng, generated, history, stats);
      var remaining := cfg.maxNewTokens - |generated|;
      var kCap := Min(spec.numDraft, remaining - 1);
      var drafts := if kCap == 0 then [] else core.ngramPropose(history, spec.maxNgram, kCap);
      var dists := PointMassDists(drafts);
      var g, st, rng', stopped, ev, committed, accepted := VerifyAndCommit(
        core, m, cache, prompt, cfg, cancel, drafts, dists, generated, stats, rng, rng);
      RoundTaken(core, m, Lookup(spec.maxNgram), cfg, spec.numDraft, cancel, poll - 1, prompt, generated, rng, stats,
                 drafts, dists, rng, committed, accepted, rng', g, stopped);
      generated, stats, rng, events := g, st, rng', events + ev;
      if stopped.Some? {
        return Ok((GenerationOutput(generated, stopped.value), stats)), events + [Done(stopped.value, |generated|)];
      }
      history := prompt + generated;
    }
    HeadFacts(m, prompt, cfg, rng, generated, history, stats);
    HeadExit(m, prompt, cfg, cancel, rng, generated, history, stats, finish);
    RoundsEnd(core, m, Lookup(spec.maxNgram), cfg, spec.numDraft, cancel, poll, prompt, generated, rng, stats, finish);
    return Ok((GenerationOutput(generated, finish), stats)), events + [Done(finish, |generated|)];
  }

  /** The draft model proposes `k` tokens, feeding the last one too so its cache covers every draft. */
  method ProposeDrafts(draft: Model, cache: ContiguousKvCache, history: seq<int>, k: nat, cfg: GenerationConfig,
      rng0: Rng)
    returns (drafts: seq<int>, dists: seq<seq<(int, real)>>, rng: Rng)
    requires history != [] && Holds(draft, cache.layers, ButLast(history))
    modifies cache
    ensures |drafts| == k && (|dists| == k || Greedy(cfg.sampling))
    ensures Proposed(draft, cfg, history, drafts, dists, rng0, rng)
    ensures Holds(draft, cache.layers, ButLast(history) + ([history[|history| - 1]] + drafts))
    ensures Greedy(cfg.sampling) ==> rng == rng0 && GreedyChain(draft, cfg, history, drafts)
  {
    hide Holds, GreedyChain, Proposed, Logits;
    drafts, dists, rng := [], [], rng0;
    ChainStart(draft, cfg, history);
    NothingProposed(draft, cfg, history, rng);
    var draftHist := history;
    var feed := history[|history| - 1];
    var step := 0;
    assert ButLast(history) == ButLast(history + drafts);
    while step <= k
      invariant 0 <= step <= k + 1 && |drafts| == Min(step, k)
      invariant Proposed(draft, cfg, history, drafts, dists, rng0, rng)
      invariant draftHist == history + drafts && feed == draftHist[|draftHist| - 1]
      invariant step <= k ==> Holds(draft, cache.layers, ButLast(draftHist))
      invariant step > k ==> Holds(draft, cache.layers, draftHist)
      invariant Greedy(cfg.sampling) ==> rng == rng0 && GreedyChain(draft, cfg, history, drafts)
    {
      ghost var held, feed0 := ButLast(draftHist), feed;
      assert held + [feed] == draftHist;
      var dl := Extend(draft, [feed], cache, held);
      if step < k {
        ghost var dists0, rng1 := dists, rng;
        if !Greedy(cfg.sampling) {
          dists := dists + [cfg.sampling.shaped(dl, draftHist)];
        }
        var (d, rng') := Sample(dl, draftHist, cfg.sampling, rng, None);
        rng := rng';
        ProposedNext(draft, cfg, history, drafts, dists0, rng0, rng1, dists);
        ChainSnoc(draft, cfg, history, drafts, d);
        drafts := drafts + [d];
        draftHist := draftHist + [d];
        feed := d;
        assert ButLast(draftHist) == held + [feed0];
      }
      step := step + 1;
    }
    assert ButLast(history) + ([history[|history| - 1]] + drafts) == draftHist;
    ProposedSizes(draft, cfg, history, drafts, dists, rng0, rng);
  }

  lemma ProposedSizes(draft: Model, cfg: GenerationConfig, history: seq<int>, drafts: seq<int>,
                      dists: seq<seq<(int, real)>>, rng0: Rng, rng: Rng)
    requires history != [] && Proposed(draft, cfg, history, drafts, dists, rng0, rng)
    ensures |dists| == |drafts| || Greedy(cfg.sampling)
  {
  }

  /** The drafts and the generator are the draft model's own run, and when sampling each draft comes with the shaped
      distribution it was drawn from. */
  ghost predicate Proposed(draft: Model, cfg: GenerationConfig, history: seq<int>, drafts: seq<int>,
                           dists: seq<seq<(int, real)>>, rng0: Rng, rng: Rng)
    requires history != []
  {
    && (drafts, rng) == DraftRun(draft, cfg, history, |drafts|, rng0)
    && (!Greedy(cfg.sampling) ==> |dists| == |drafts| && forall i :: 0 <= i < |drafts| ==>
      dists[i] == cfg.sampling.shaped(Logits(draft, history + drafts[..i]), history + drafts[..i]))
  }

  lemma NothingProposed(draft: Model, cfg: GenerationConfig, history: seq<int>, rng: Rng)
    requires history != []
    ensures Proposed(draft, cfg, history, [], [], rng, rng)
  {
  }

  lemma ProposedNext(draft: Model, cfg: GenerationConfig, history: seq<int>, drafts: seq<int>,
                     dists: seq<seq<(int, real)>>, rng0: Rng, rng: Rng, dists': seq<seq<(int, real)>>)
    requires history != [] && Proposed(draft, cfg, history, drafts, dists, rng0, rng)
    requires !Greedy(cfg.sampling) ==>
      dists' == dists + [cfg.sampling.shaped(Logits(draft, history + drafts), history + drafts)]
    ensures var (d, rng') := Sample(Logits(draft, history + drafts), history + drafts, cfg.sampling, rng, None);
      Proposed(draft, cfg, history, drafts + [d], dists', rng0, rng')
  {
    hide Logits, Sample;
    var (d, rng') := Sample(Logits(draft, history + drafts), history + drafts, cfg.sampling, rng, None);
    assert (drafts + [d])[..|drafts|] == drafts;
    forall i | 0 <= i < |drafts| ensures (drafts + [d])[..i] == drafts[..i] {
    }
  }

  lemma ChainStart(m: Model, cfg: GenerationConfig, history: seq<int>)
    requires history != []
    ensures GreedyChain(m, cfg, history, [])
  {
  }

  lemma ChainSnoc(m: Model, cfg: GenerationConfig, history: seq<int>, chain: seq<int>, t: int)
    requires history != []
    ensures GreedyChain(m, cfg, history, chain) && t == GreedyNext(m, cfg, history + chain)
      ==> GreedyChain(m, cfg, history, chain + [t])
  {
    forall i | 0 <= i <= |chain| ensures (chain + [t])[..i] == chain[..i] {
    }
    assert chain[..|chain|] == chain;
  }

  lemma DraftsAreProposed(core: Core, draft: Model, cfg: GenerationConfig, history: seq<int>, drafts: seq<int>,
                          dists: seq<seq<(int, real)>>, rngD: Rng, k: nat, rng: Rng)
    requires history != [] && |drafts| == k && Proposed(draft, cfg, history, drafts, dists, rng, rngD)
    ensures var p := Propose(core, DraftModel(draft), cfg, history, k, rng);
      p.drafts == drafts && p.rng == rngD && (Greedy(cfg.sampling) || p.dists == dists)
  {
    hide DraftRun;
  }

  /** One round: the draft model proposes, the target verifies, both caches roll back, the round is committed. */
  method DraftRound(core: Core, target: Model, draft: Model, targetCache: ContiguousKvCache,
                    draftCache: ContiguousKvCache, prompt: seq<int>, cfg: GenerationConfig, numDraft: nat,
                    cancel: CancelFlag, ghost poll: nat, generated0: seq<int>, stats0: SpeculativeStats, rng0: Rng)
    returns (generated: seq<int>, stats: SpeculativeStats, rng: Rng, stopped: Option<FinishReason>,
             events: seq<StreamEvent>)
    requires prompt != [] && LoopHead(target, prompt, cfg, rng0, generated0, prompt + generated0, stats0)
    requires 0 < |generated0| < cfg.maxNewTokens && !Tripped(cancel, poll)
    requires targetCache != draftCache && Holds(target, targetCache.layers, ButLast(prompt + generated0))
    requires Holds(draft, draftCache.layers, ButLast(prompt + generated0)) && CoreContract(core)
    modifies targetCache, draftCache
    ensures TokenEvents(generated0) + events == TokenEvents(generated)
    ensures stopped.Some? ==>
      var out := GenerationOutput(generated, stopped.value);
      SpeculativeRun(target, prompt, cfg, cancel, out, stats, EventsOf(out))
    ensures stopped.None? ==>
      && |generated| > |generated0| && LoopHead(target, prompt, cfg, rng, generated, prompt + generated, stats)
      && Holds(target, targetCache.layers, ButLast(prompt + generated))
      && Holds(draft, draftCache.layers, ButLast(prompt + generated))
    ensures Rounds(core, target, DraftModel(draft), cfg, numDraft, cancel, poll, prompt, generated0, rng0, stats0)
      == match stopped
         case Some(reason) => (GenerationOutput(generated, reason), stats)
         case None =>
           Rounds(core, target, DraftModel(draft), cfg, numDraft, cancel, poll + 1, prompt, generated, rng, stats)
  {
    hide Holds, LoopHead, SpeculativeRun, CommitRound, GreedyChain, CoreContract, Logits, Sample, TokenEvents,
      ValidModel, Rounds, Decide, Proposed, Propose, Tripped;
    var history := prompt + generated0;
    var k := Min(numDraft, cfg.maxNewTokens - |generated0| - 1);
    OffsetIsHeld(draft, draftCache, ButLast(history));
    var baseDraft := draftCache.Offset();
    var drafts, dists, rngD := ProposeDrafts(draft, draftCache, history, k, cfg, rng0);
    var committed, accepted;
    generated, stats, rng, stopped, events, committed, accepted := VerifyAndCommit(
      core, target, targetCache, prompt, cfg, cancel, drafts, dists, generated0, stats0, rng0, rngD);
    DraftsAreProposed(core, draft, cfg, history, drafts, dists, rngD, k, rng0);
    RoundTaken(core, target, DraftModel(draft), cfg, numDraft, cancel, poll, prompt, generated0, rng0, stats0,
               drafts, dists, rngD, committed, accepted, rng, generated, stopped);
    RollBackTo(draft, draftCache, baseDraft, history, drafts, committed, accepted);
    assert stopped.None? ==> history + committed == prompt + generated;
  }

  /** `generate_draft_speculative`: both caches stay in step with the history through every rollback. */
  method GenerateDraftSpeculative(core: Core, target: Model, draft: Model, prompt: seq<int>, cfg: GenerationConfig,
                                  spec: SpeculativeConfig, cancel: CancelFlag)
    returns (res: Result<(GenerationOutput, SpeculativeStats), Error>, events: seq<StreamEvent>)
    requires ValidModel(target) && ValidModel(draft) && CoreContract(core)
    ensures Tripped(cancel, 0) ==> res == Err(Canceled) && events == []
    ensures !Tripped(cancel, 0) ==> (res.Err? <==> prompt == [] || target.vocabSize != draft.vocabSize)
    ensures res.Err? ==> events == []
    ensures res.Ok? ==> SpeculativeRun(target, prompt, cfg, cancel, res.value.0, res.value.1, events)
    ensures res.Ok? ==>
      res.value == RoundsFromSeed(core, target, DraftModel(draft), cfg, spec.numDraft, cancel, prompt)
  {
    hide Holds, LoopHead, SpeculativeRun, CommitRound, GreedyChain, CoreContract, Logits, Sample, TokenEvents,
      ValidModel, Rounds, Decide, Proposed, Propose;
    if Tripped(cancel, 0) {
      return Err(Canceled), [];
    }
    if prompt == [] {
      return Err(Msg("generate_draft_speculative: empty prompt")), [];
    }
    if target.vocabSize != draft.vocabSize {
      return Err(Msg("draft/target vocab mismatch")), [];
    }
    EarlyExits(target, prompt, cfg, cancel);
    var stats := SpeculativeStats(0, 0, 0);
    if cfg.maxNewTokens == 0 {
      return Ok((GenerationOutput([], MaxTokens), stats)), [Done(MaxTokens, 0)];
    }
    var rng := cfg.seed;
    var targetCache := new ContiguousKvCache(|target.layers|);
    var draftCache := new ContiguousKvCache(|draft.layers|);
    FreshHoldsNothing(target, targetCache.layers);
    FreshHoldsNothing(draft, draftCache.layers);
    assert [] + prompt == prompt;
    var logitsLast := Extend(target, prompt, targetCache, []);
    var _ := Extend(draft, prompt, draftCache, []);
    stats := stats.(forwards := 1);
    var history := prompt;
    FirstToken(target, cfg, prompt);
    var (first, rng1) := Sample(logitsLast, history, cfg.sampling, rng, None);
    rng := rng1;
    if first in cfg.stopTokens {
      return Ok((GenerationOutput([], StopToken), stats)), [Done(StopToken, 0)];
    }
    events := [Token(first, 0)];
    var generated := [first];
    history := history + [first];
    assert ButLast(history) == prompt;
    var finish := MaxTokens;
    var poll := 1;
    ghost var goal := Rounds(core, target, DraftModel(draft), cfg, spec.numDraft, cancel, 1, prompt, generated, rng,
                             stats);
    while |generated| < cfg.maxNewTokens
      invariant LoopHead(target, prompt, cfg, rng, generated, history, stats)
      invariant history == prompt + generated
      invariant Holds(target, targetCache.layers, ButLast(history))
      invariant Holds(draft, draftCache.layers, ButLast(history))
      invariant events == TokenEvents(generated) && finish == MaxTokens
      invariant goal == Rounds(core, target, DraftModel(draft), cfg, spec.numDraft, cancel, poll, prompt, generated,
                               rng, stats)
      decreases cfg.maxNewTokens - |generated|
    {
      if Tripped(cancel, poll) {
        finish := Cancelled;
        break;
      }
      poll := poll + 1;
      HeadFacts(target, prompt, cfg, rng, generated, history, stats);
      var stopped, ev;
      generated, stats, rng, stopped, ev := DraftRound(core, target, draft, targetCache, draftCache, prompt, cfg,
                                                       spec.numDraft, cancel, poll - 1, generated, stats, rng);
      events := events + ev;
      if stopped.Some? {
        return Ok((GenerationOutput(generated, stopped.value), stats)), events + [Done(stopped.value, |generated|)];
      }
      history := prompt + generated;
    }
    HeadFacts(target, prompt, cfg, rng, generated, history, stats);
    HeadExit(target, prompt, cfg, cancel, rng, generated, history, stats, finish);
    RoundsEnd(core, target, DraftModel(draft), cfg, spec.numDraft, cancel, poll, prompt, generated, rng, stats, finish);
    return Ok((GenerationOutput(generated, finish), stats)), events + [Done(finish, |generated|)];
  }
}
