/** src/primitives/sampler.rs, as the decode loops see it: the shaping, the argmax and the draw are arbitrary
    functions; what is fixed is which state they read and that greedy sampling never touches the generator. */
module Sampler {
  import opened Prelude
  import opened Attention

  /** The state of the seeded generator. */
  type Rng = nat

  /** One `SamplingParams` value, with the functions it selects. */
  datatype SamplingParams = SamplingParams(
    temperature: real,
    argmax: (Vec, seq<int>, Option<seq<bool>>) -> int,
    draw: (Vec, seq<int>, Option<seq<bool>>, Rng) -> (int, Rng),
    shaped: (Vec, seq<int>) -> seq<(int, real)>,
    nextF32: Rng -> (real, Rng))

  predicate Greedy(p: SamplingParams) { p.temperature <= 0.0 }

  /** The next token and the generator after it, from logits, history, generator and constraint mask. */
  function Sample(logits: Vec, history: seq<int>, p: SamplingParams, rng: Rng, allowed: Option<seq<bool>>): (int, Rng)
  {
    if Greedy(p) then (p.argmax(logits, history, allowed), rng) else p.draw(logits, history, allowed, rng)
  }
}
