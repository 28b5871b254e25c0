/** The host-side policy object `core_llm::Scheduler`, by its contract, and the per-request reference run. Its
    code is not part of this model. */
module Scheduler {
  import opened Prelude
  import opened Llama
  import opened Sampler
  import opened Stream

  datatype CoreFinish = Stop | Length

  datatype SeqState = SeqState(
    promptLen: nat, budget: nat, stops: seq<int>, generated: seq<int>, finish: Option<CoreFinish>)

  /** A newly admitted sequence: a zero budget retires it at once. */
  function Admitted(prompt: seq<int>, budget: nat, stops: seq<int>): SeqState
  {
    SeqState(|prompt|, budget, stops, [], if budget == 0 then Some(Length) else None)
  }

  /** Recording a token: stop tokens first (excluded), then push, then the budget. */
  function Recorded(s: SeqState, tok: int): SeqState
  {
    if tok in s.stops then s.(finish := Some(Stop))
    else s.(generated := s.generated + [tok],
            finish := if |s.generated| + 1 >= s.budget then Some(Length) else None)
  }

  /** How many tokens have been drawn for a sequence: those generated, and the stop token that ended it. */
  function DrawnBy(s: SeqState): nat
  {
    |s.generated| + (if s.finish == Some(Stop) then 1 else 0)
  }

  class Scheduler {
    var seqs: seq<SeqState>

    constructor ()
      ensures seqs == []
    {
      seqs := [];
    }

    /** Ids are handed out in order. */
    method Admit(prompt: seq<int>, budget: nat, stops: seq<int>) returns (id: nat)
      modifies this
      ensures id == |old(seqs)| && seqs == old(seqs) + [Admitted(prompt, budget, stops)]
    {
      id := |seqs|;
      seqs := seqs + [Admitted(prompt, budget, stops)];
    }

    predicate IsActive(id: nat)
      requires id < |seqs|
      reads this
    {
      seqs[id].finish.None?
    }

    /** Prompt plus generated tokens. */
    function Offset(id: nat): nat
      requires id < |seqs|
      reads this
    {
      seqs[id].promptLen + |seqs[id].generated|
    }

    method Record(id: nat, tok: int) returns (finish: Option<CoreFinish>)
      requires id < |seqs| && IsActive(id)
      modifies this
      ensures seqs == old(seqs)[id := Recorded(old(seqs)[id], tok)]
      ensures finish == seqs[id].finish
    {
      seqs := seqs[id := Recorded(seqs[id], tok)];
      finish := seqs[id].finish;
    }
  }

  /** How many tokens the active sequences may still record: what every recorded token strictly reduces. */
  function Remaining(seqs: seq<SeqState>): nat
  {
    if seqs == [] then 0 else RemainingOf(seqs[0]) + Remaining(seqs[1..])
  }

  function RemainingOf(s: SeqState): nat
  {
    if s.finish.None? && s.budget > |s.generated| then s.budget - |s.generated| else 0
  }

  lemma {:induction false} RemainingUpdate(seqs: seq<SeqState>, i: nat, s: SeqState)
    requires i < |seqs|
    ensures Remaining(seqs[i := s]) == Remaining(seqs) - RemainingOf(seqs[i]) + RemainingOf(s)
  {
    if i > 0 {
      RemainingUpdate(seqs[1..], i - 1, s);
      assert seqs[i := s][1..] == seqs[1..][i - 1 := s];
    } else {
      assert seqs[0 := s][1..] == seqs[1..];
    }
  }

  // ----- requests and what each would produce alone -----

  /** One request of a batch (src/decode/batch.rs), with an explicit seed. */
  datatype BatchRequest = BatchRequest(
    promptIds: seq<int>, sampling: SamplingParams, seed: Rng, maxNewTokens: nat, stopTokens: seq<int>)

  function ConfigOf(r: BatchRequest): GenerationConfig
  {
    GenerationConfig(r.maxNewTokens, r.sampling, r.seed, r.stopTokens)
  }

  /** The uncancelled run that has committed `generated` so far. */
  function SoloFrom(m: Model, r: BatchRequest, generated: seq<int>, rng: Rng): GenerationOutput
    requires r.promptIds != []
  {
    Solo(m, ConfigOf(r), NoHooks, Never, 1, r.promptIds, generated, rng)
  }

  /** What the request produces when it runs alone, uncancelled. */
  function SoloOf(m: Model, r: BatchRequest): GenerationOutput
    requires r.promptIds != []
  {
    SoloFrom(m, r, [], r.seed)
  }

  /** Having committed `generated` with generator `rng`, the request is still on its solo run. */
  ghost predicate OnTrack(m: Model, r: BatchRequest, generated: seq<int>, rng: Rng)
    requires r.promptIds != []
  {
    |generated| < r.maxNewTokens && SoloOf(m, r) == SoloFrom(m, r, generated, rng)
  }

  /** The events one recorded token emits, as `record_token` and `apply_token` do. */
  function RecordEvents(s: SeqState, tok: int): seq<StreamEvent>
  {
    if tok in s.stops then [Done(StopToken, |s.generated|)]
    else [Token(tok, |s.generated|)]
         + (if |s.generated| + 1 >= s.budget then [Done(MaxTokens, |s.generated| + 1)] else [])
  }

  /** A request's output as assembled from the scheduler's record. */
  function OutputOf(s: SeqState): GenerationOutput
  {
    GenerationOutput(s.generated,
      match s.finish
      case Some(Stop) => StopToken
      case Some(Length) => MaxTokens
      case None => Cancelled)
  }

  /** The scheduler's record of a live request. */
  predicate RecordOf(s: SeqState, r: BatchRequest, generated: seq<int>)
  {
    s == SeqState(|r.promptIds|, r.maxNewTokens, r.stopTokens, generated, None)
  }

  /** Recording the next solo token either finishes the request with exactly its solo output and events, or
      keeps it on track with one more token. */
  lemma RecordIsSolo(m: Model, r: BatchRequest, s: SeqState, generated: seq<int>, rng: Rng)
    requires r.promptIds != [] && OnTrack(m, r, generated, rng) && RecordOf(s, r, generated)
    ensures var history := r.promptIds + generated;
      var (tok, rng') := Sample(Logits(m, history), history, r.sampling, rng, None);
      var s' := Recorded(s, tok);
      var events := TokenEvents(generated) + RecordEvents(s, tok);
      if s'.finish.Some? then (OutputOf(s') == SoloOf(m, r) && events == EventsOf(SoloOf(m, r)))
      else (&& RecordOf(s', r, generated + [tok])
            && OnTrack(m, r, generated + [tok], rng')
            && events == TokenEvents(generated + [tok]))
  {
    var history := r.promptIds + generated;
    var (tok, rng') := Sample(Logits(m, history), history, r.sampling, rng, None);
    TokenEventsSnoc(generated, tok);
    if |generated| + 1 == r.maxNewTokens {
      assert SoloFrom(m, r, generated + [tok], rng') == GenerationOutput(generated + [tok], MaxTokens);
    }
  }

  lemma StartsOnTrack(m: Model, r: BatchRequest)
    requires r.promptIds != []
    ensures r.maxNewTokens > 0 ==> OnTrack(m, r, [], r.seed)
    ensures r.maxNewTokens == 0 ==> SoloOf(m, r) == GenerationOutput([], MaxTokens)
  {
  }

  /** Tokens committed on track are a prefix of the solo run's. */
  lemma OnTrackIsPrefix(m: Model, r: BatchRequest, generated: seq<int>, rng: Rng)
    requires r.promptIds != [] && OnTrack(m, r, generated, rng)
    ensures generated <= SoloOf(m, r).tokens
  {
    SoloWithinBudget(m, ConfigOf(r), NoHooks, Never, 1, r.promptIds, generated, rng);
  }

  /** An uncancelled solo run never reports cancellation. */
  lemma {:induction false} SoloNeverCancelled(m: Model, r: BatchRequest, generated: seq<int>, rng: Rng)
    requires r.promptIds != []
    ensures SoloFrom(m, r, generated, rng).finishReason != Cancelled
    decreases r.maxNewTokens - |generated|
  {
    if |generated| < r.maxNewTokens {
      var history := r.promptIds + generated;
      var (tok, rng') := Sample(Logits(m, history), history, r.sampling, rng, None);
      SoloNeverCancelled(m, r, generated + [tok], rng');
    }
  }

  // ----- interleaved events -----

  type TaggedEvent = (nat, StreamEvent)

  /** The events of request `ri`, in order. */
  function EventsFor(events: seq<TaggedEvent>, ri: nat): seq<StreamEvent>
  {
    if events == [] then []
    else
      var last := events[|events| - 1];
      EventsFor(events[..|events| - 1], ri) + (if last.0 == ri then [last.1] else [])
  }

  function Tag(ri: nat, events: seq<StreamEvent>): (out: seq<TaggedEvent>)
    ensures |out| == |events|
    ensures forall i :: 0 <= i < |events| ==> out[i] == (ri, events[i])
  {
    seq(|events|, i requires 0 <= i < |events| => (ri, events[i]))
  }

  lemma EventsForSnoc(events: seq<TaggedEvent>, e: TaggedEvent, ri: nat)
    ensures EventsFor(events + [e], ri) == EventsFor(events, ri) + (if e.0 == ri then [e.1] else [])
  {
    assert (events + [e])[..|events|] == events;
  }

  /** Appending one request's events extends its own projection and no other. */
  lemma {:induction false} EventsForTagged(events: seq<TaggedEvent>, ri: nat, more: seq<StreamEvent>, rj: nat)
    ensures EventsFor(events + Tag(ri, more), rj) == EventsFor(events, rj) + (if rj == ri then more else [])
    decreases |more|
  {
    hide EventsFor, Tag;
    if more == [] {
      assert events + Tag(ri, more) == events;
    } else {
      var most := more[..|more| - 1];
      var last := more[|more| - 1];
      EventsForTagged(events, ri, most, rj);
      assert Tag(ri, more) == Tag(ri, most) + [(ri, last)];
      Assoc(events, Tag(ri, most), [(ri, last)]);
      EventsForSnoc(events + Tag(ri, most), (ri, last), rj);
      assert more == most + [last];
      Assoc(EventsFor(events, rj), most, [last]);
    }
  }
}
