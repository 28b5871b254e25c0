/** When a continuously batched request gets its slot, and what a cancel leaves of it (src/decode/continuous.rs): time
    is counted in decode passes, and request by request the schedule is first come, first served. */
module Timing {
  import opened Prelude
  import opened Llama
  import opened Sampler
  import opened Stream
  import opened Scheduler
  import opened Lanes

  // ----- the schedule, from how long each request runs alone -----

  /** How many tokens the request draws when it runs alone. */
  function Life(m: Model, r: BatchRequest): nat
    requires r.promptIds != []
  {
    Drawn(SoloOf(m, r))
  }

  function Lives(m: Model, reqs: seq<BatchRequest>): (out: seq<nat>)
    requires ValidRequests(reqs)
    ensures |out| == |reqs| && forall i :: 0 <= i < |reqs| ==> out[i] == Life(m, reqs[i])
  {
    seq(|reqs|, i requires 0 <= i < |reqs| => Life(m, reqs[i]))
  }

  /** Request `j`, admitted after `times[j]` passes with its first draw, has more to draw after `now` passes. */
  predicate Busy(lives: seq<nat>, times: seq<nat>, now: nat, j: nat)
    requires j < |times| <= |lives|
  {
    times[j] <= now && now + 1 < times[j] + lives[j]
  }

  function Running(lives: seq<nat>, times: seq<nat>, now: nat): set<nat>
    requires |times| <= |lives|
  {
    set j: nat | j < |times| && Busy(lives, times, now, j)
  }

  /** Slots taken after `now` passes. */
  function Occupied(lives: seq<nat>, times: seq<nat>, now: nat): nat
    requires |times| <= |lives|
  {
    |Running(lives, times, now)|
  }

  /** A pass after which every admitted request is through. */
  function Horizon(lives: seq<nat>, times: seq<nat>): (h: nat)
    requires |times| <= |lives|
    ensures forall j :: 0 <= j < |times| ==> times[j] + lives[j] <= h
  {
    if times == [] then 0
    else
      var last := |times| - 1;
      Max(Horizon(lives, times[..last]), times[last] + lives[last])
  }

  lemma NoneAfterHorizon(lives: seq<nat>, times: seq<nat>, now: nat)
    requires |times| <= |lives|
    ensures now >= Horizon(lives, times) ==> Occupied(lives, times, now) == 0
  {
    assert now >= Horizon(lives, times) ==> Running(lives, times, now) == {};
  }

  /** The first pass from `now` on that leaves a slot free. */
  function FirstFree(lives: seq<nat>, times: seq<nat>, slots: nat, now: nat): (t: nat)
    requires |times| <= |lives| && slots > 0
    ensures t >= now && Occupied(lives, times, t) < slots
    ensures forall u :: now <= u < t ==> Occupied(lives, times, u) >= slots
    decreases Horizon(lives, times) - now
  {
    if Occupied(lives, times, now) < slots then now
    else
      NoneAfterHorizon(lives, times, now);
      FirstFree(lives, times, slots, now + 1)
  }

  function LastOf(times: seq<nat>): nat { if times == [] then 0 else times[|times| - 1] }

  /** When the first `n` requests are admitted: each in turn, as soon as there is a slot. */
  function Admissions(lives: seq<nat>, slots: nat, n: nat): (times: seq<nat>)
    requires n <= |lives| && slots > 0
    ensures |times| == n
  {
    if n == 0 then []
    else
      var before := Admissions(lives, slots, n - 1);
      before + [FirstFree(lives, before, slots, LastOf(before))]
  }

  /** Later requests are not admitted earlier, and admitting more changes nothing for those before. */
  lemma {:induction false} AdmissionsGrow(lives: seq<nat>, slots: nat, n: nat, k: nat)
    requires n <= k <= |lives| && slots > 0
    ensures Admissions(lives, slots, n) == Admissions(lives, slots, k)[..n]
    ensures forall i :: n <= i < k ==> LastOf(Admissions(lives, slots, n)) <= Admissions(lives, slots, k)[i]
    ensures LastOf(Admissions(lives, slots, n)) <= LastOf(Admissions(lives, slots, k))
    decreases k - n
  {
    if n < k {
      AdmissionsGrow(lives, slots, n, k - 1);
    }
  }

  /** The first requests, up to the number of slots, are admitted before any pass. */
  lemma {:induction false} FirstAtOnce(lives: seq<nat>, slots: nat, n: nat)
    requires n <= |lives| && n <= slots && slots > 0
    ensures forall i :: 0 <= i < n ==> Admissions(lives, slots, n)[i] == 0
  {
    if n > 0 {
      FirstAtOnce(lives, slots, n - 1);
      var before := Admissions(lives, slots, n - 1);
      RunningFits(lives, before, LastOf(before));
    }
  }

  lemma RunningFits(lives: seq<nat>, times: seq<nat>, now: nat)
    requires |times| <= |lives|
    ensures Occupied(lives, times, now) <= |times|
  {
    SubsetSize(Running(lives, times, now), Below(|times|));
  }

  function Below(n: nat): (s: set<nat>)
    ensures |s| == n && forall j: nat :: j in s <==> j < n
  {
    if n == 0 then {} else Below(n - 1) + {n - 1}
  }

  lemma {:induction false} SubsetSize(a: set<nat>, b: set<nat>)
    requires a <= b
    ensures |a| <= |b|
  {
    if a != {} {
      var x :| x in a;
      SubsetSize(a - {x}, b - {x});
    }
  }

  // ----- the run on that schedule -----

  /** After `now` passes a request that is still decoding has drawn once at its admission and once in every pass since,
      and one that finished has not drawn more often. */
  ghost predicate OnClock<C>(seqs: seq<SeqState>, times: seq<nat>, now: nat, lanes: seq<Lane<C>>)
  {
    && |times| <= |seqs|
    && forall ri :: 0 <= ri < |times| ==>
      && times[ri] <= now
      && if LaneOf(lanes, ri).Some? then times[ri] + DrawnBy(seqs[ri]) == now + 1
         else times[ri] + DrawnBy(seqs[ri]) <= now + 1
  }

  /** What the books say of a request that was taken off the queue: its draws against those of its whole solo run. */
  lemma DrawsOf<C>(m: Model, reqs: seq<BatchRequest>, seqs: seq<SeqState>, events: seq<TaggedEvent>, nextReq: nat,
                   lanes: seq<Lane<C>>, ri: nat)
    requires ValidRequests(reqs) && Books(m, reqs, seqs, events, nextReq, lanes) && ri < nextReq
    ensures nextReq <= |reqs| == |seqs|
    ensures LaneOf(lanes, ri).Some? ==>
      && seqs[ri].finish.None? && 0 < DrawnBy(seqs[ri]) < Life(m, reqs[ri])
      && seqs[ri].generated <= SoloOf(m, reqs[ri]).tokens
    ensures LaneOf(lanes, ri).None? ==>
      seqs[ri].finish.Some? && DrawnBy(seqs[ri]) == Life(m, reqs[ri]) && OutputOf(seqs[ri]) == SoloOf(m, reqs[ri])
  {
    hide Solo;
    var r, s, lane := reqs[ri], seqs[ri], LaneOf(lanes, ri);
    assert StateOk(m, r, s, EventsFor(events, ri), true, lane);
    if lane.Some? {
      SoloGrows(m, ConfigOf(r), NoHooks, 1, r.promptIds, s.generated, lane.value.rng);
    }
  }

  /** One pass: every lane drew once. */
  lemma ClockTicks<C>(m: Model, reqs: seq<BatchRequest>, before: seq<SeqState>, after: seq<SeqState>,
                      events: seq<TaggedEvent>, events': seq<TaggedEvent>, times: seq<nat>, now: nat,
                      lanes: seq<Lane<C>>, survivors: seq<Lane<C>>)
    requires ValidRequests(reqs) && Books(m, reqs, before, events, |times|, lanes)
    requires Books(m, reqs, after, events', |times|, survivors)
    requires OnClock(before, times, now, lanes) && Redrawn(before, after, lanes)
    ensures OnClock(after, times, now + 1, survivors)
  {
    hide Books, Life, LaneOf, DrawnBy;
    BooksSizes(m, reqs, after, events', |times|, survivors);
    forall ri: nat | ri < |times|
      ensures if LaneOf(survivors, ri).Some? then times[ri] + DrawnBy(after[ri]) == now + 2
              else times[ri] + DrawnBy(after[ri]) <= now + 2
    {
      DrawsOf(m, reqs, before, events, |times|, lanes, ri);
      DrawsOf(m, reqs, after, events', |times|, survivors, ri);
    }
  }

  /** An admission at `now`. */
  lemma ClockAdmits<C>(before: seq<SeqState>, after: seq<SeqState>, times: seq<nat>, now: nat, lanes: seq<Lane<C>>,
                       lane: Option<Lane<C>>)
    requires OnClock(before, times, now, lanes) && |times| < |before| == |after|
    requires forall rj :: 0 <= rj < |before| && rj != |times| ==> after[rj] == before[rj]
    requires DistinctLanes(lanes, |times|) && DrawnBy(after[|times|]) <= 1
    requires lane.Some? ==> lane.value.reqIndex == |times| && DrawnBy(after[|times|]) == 1
    ensures OnClock(after, times + [now], now, if lane.Some? then lanes + [lane.value] else lanes)
  {
    hide DrawnBy;
    NoLaneOf(lanes, |times|);
    var lanes' := if lane.Some? then lanes + [lane.value] else lanes;
    forall rj: nat ensures LaneOf(lanes', rj) == if rj == |times| then lane else LaneOf(lanes, rj) {
      if lane.Some? {
        LaneOfAppend(lanes, [lane.value], rj);
        assert [lane.value][1..] == [];
      }
    }
  }

  lemma BusyIsLane<C>(m: Model, reqs: seq<BatchRequest>, seqs: seq<SeqState>, events: seq<TaggedEvent>,
                      times: seq<nat>, now: nat, lanes: seq<Lane<C>>, j: nat)
    requires ValidRequests(reqs) && Books(m, reqs, seqs, events, |times|, lanes) && OnClock(seqs, times, now, lanes)
    requires j < |times| <= |reqs|
    ensures Busy(Lives(m, reqs), times, now, j) <==> LaneOf(lanes, j).Some?
  {
    hide Books, Life, LaneOf, DrawnBy;
    DrawsOf(m, reqs, seqs, events, |times|, lanes, j);
  }

  /** The slots the schedule counts as taken are the lanes. */
  lemma OccupiedIsLanes<C>(m: Model, reqs: seq<BatchRequest>, seqs: seq<SeqState>, events: seq<TaggedEvent>,
                           times: seq<nat>, now: nat, lanes: seq<Lane<C>>)
    requires ValidRequests(reqs) && Books(m, reqs, seqs, events, |times|, lanes) && OnClock(seqs, times, now, lanes)
    ensures |times| <= |reqs| && Occupied(Lives(m, reqs), times, now) == |lanes|
  {
    assert DistinctLanes(lanes, |times|);
    hide Books, Life, LaneOf, DistinctLanes, OnClock, Busy;
    BooksSizes(m, reqs, seqs, events, |times|, lanes);
    var lives := Lives(m, reqs);
    forall j: nat | j < |times| ensures Busy(lives, times, now, j) <==> LaneOf(lanes, j).Some? {
      BusyIsLane(m, reqs, seqs, events, times, now, lanes, j);
    }
    LanesAreIndices(lanes, |times|);
    assert Running(lives, times, now) == WithLane(lanes, |times|);
  }

  function WithLane<C>(lanes: seq<Lane<C>>, bound: nat): set<nat>
  {
    set j: nat | j < bound && LaneOf(lanes, j).Some?
  }

  lemma {:induction false} LanesAreIndices<C>(lanes: seq<Lane<C>>, bound: nat)
    requires DistinctLanes(lanes, bound)
    ensures |WithLane(lanes, bound)| == |lanes|
  {
    if lanes == [] {
      assert WithLane(lanes, bound) == {};
    } else {
      LanesAreIndices(lanes[1..], bound);
      var i := lanes[0].reqIndex;
      NoLaneOf(lanes[1..], i);
      assert i !in WithLane(lanes[1..], bound);
      assert WithLane(lanes, bound) == WithLane(lanes[1..], bound) + {i};
    }
  }

  /** No pass since the last admission left a slot for the next request. */
  ghost predicate FullSince(lives: seq<nat>, times: seq<nat>, slots: nat, now: nat)
    requires |times| <= |lives|
  {
    LastOf(times) <= now && forall t :: LastOf(times) <= t < now ==> Occupied(lives, times, t) >= slots
  }

  /** The state of a run after `now` passes: everything so far happened when the schedule says. */
  ghost predicate OnSchedule<C>(m: Model, reqs: seq<BatchRequest>, seqs: seq<SeqState>, slots: nat, nextReq: nat,
                                now: nat, lanes: seq<Lane<C>>)
    requires ValidRequests(reqs) && slots > 0
  {
    && nextReq <= |reqs|
    && var times := Admissions(Lives(m, reqs), slots, nextReq);
      OnClock(seqs, times, now, lanes) && (nextReq < |reqs| ==> FullSince(Lives(m, reqs), times, slots, now))
  }

  lemma ScheduleStarts<C>(m: Model, reqs: seq<BatchRequest>, seqs: seq<SeqState>, slots: nat)
    requires ValidRequests(reqs) && slots > 0 && |seqs| == |reqs|
    ensures OnSchedule<C>(m, reqs, seqs, slots, 0, 0, [])
  {
  }

  /** Taking the next request while a slot is free is what the schedule says. */
  lemma ScheduleAdmits<C>(m: Model, reqs: seq<BatchRequest>, before: seq<SeqState>, after: seq<SeqState>,
                          events: seq<TaggedEvent>, slots: nat, nextReq: nat, now: nat, lanes: seq<Lane<C>>,
                          lane: Option<Lane<C>>)
    requires ValidRequests(reqs) && slots > 0 && nextReq < |reqs| == |after| == |before| && |lanes| < slots
    requires Books(m, reqs, before, events, nextReq, lanes) && OnSchedule(m, reqs, before, slots, nextReq, now, lanes)
    requires forall rj :: 0 <= rj < |before| && rj != nextReq ==> after[rj] == before[rj]
    requires DrawnBy(after[nextReq]) <= 1
    requires lane.Some? ==> lane.value.reqIndex == nextReq && DrawnBy(after[nextReq]) == 1
    ensures OnSchedule(m, reqs, after, slots, nextReq + 1, now, if lane.Some? then lanes + [lane.value] else lanes)
  {
    assert DistinctLanes(lanes, nextReq);
    hide Books, OnClock, Lives, Occupied, DistinctLanes, DrawnBy;
    var lives := Lives(m, reqs);
    var times := Admissions(lives, slots, nextReq);
    OccupiedIsLanes(m, reqs, before, events, times, now, lanes);
    assert FirstFree(lives, times, slots, LastOf(times)) == now;
    ClockAdmits(before, after, times, now, lanes, lane);
  }

  /** A pass with all slots taken, or an empty queue, keeps the schedule. */
  lemma ScheduleTicks<C>(m: Model, reqs: seq<BatchRequest>, before: seq<SeqState>, after: seq<SeqState>,
                         events: seq<TaggedEvent>, events': seq<TaggedEvent>, slots: nat, nextReq: nat, now: nat,
                         lanes: seq<Lane<C>>, survivors: seq<Lane<C>>)
    requires ValidRequests(reqs) && slots > 0 && Books(m, reqs, before, events, nextReq, lanes)
    requires Books(m, reqs, after, events', nextReq, survivors)
    requires OnSchedule(m, reqs, before, slots, nextReq, now, lanes) && Redrawn(before, after, lanes)
    requires |lanes| == slots || nextReq == |reqs|
    ensures OnSchedule(m, reqs, after, slots, nextReq, now + 1, survivors)
  {
    hide Books, OnClock, Lives, Occupied;
    var times := Admissions(Lives(m, reqs), slots, nextReq);
    ClockTicks(m, reqs, before, after, events, events', times, now, lanes, survivors);
    OccupiedIsLanes(m, reqs, before, events, times, now, lanes);
  }

  // ----- what is left of each request -----

  /** The request on its own, under the flag, with its first draw at poll `poll0`. */
  function UnderFlag(m: Model, r: BatchRequest, cancel: CancelFlag, poll0: nat): GenerationOutput
    requires r.promptIds != []
  {
    Solo(m, ConfigOf(r), NoHooks, cancel, poll0, r.promptIds, [], r.seed)
  }

  lemma {:induction false} NeverIgnoresPolls(m: Model, cfg: GenerationConfig, hooks: Hooks, a: nat, b: nat,
      prompt: seq<int>, generated: seq<int>, rng: Rng)
    requires prompt != []
    ensures Solo(m, cfg, hooks, Never, a, prompt, generated, rng)
         == Solo(m, cfg, hooks, Never, b, prompt, generated, rng)
    decreases cfg.maxNewTokens - |generated|
  {
    hide Logits, Sample;
    if |generated| < cfg.maxNewTokens {
      var history := prompt + generated;
      var (next, rng') := Sample(Logits(m, history), history, cfg.sampling, rng, Allowed(hooks, generated));
      if next !in cfg.stopTokens && !HostStops(hooks, generated + [next]) {
        NeverIgnoresPolls(m, cfg, hooks, a, b, prompt, generated + [next], rng');
      }
    }
  }

  lemma UnderFlagIsCut(m: Model, r: BatchRequest, cancel: CancelFlag, poll0: nat)
    requires r.promptIds != []
    ensures UnderFlag(m, r, cancel, poll0) == match cancel
      case Never => SoloOf(m, r)
      case AtPoll(n) => CutAt(SoloOf(m, r), poll0, n)
  {
    hide Solo, CutAt;
    NeverIgnoresPolls(m, ConfigOf(r), NoHooks, 1, poll0, r.promptIds, [], r.seed);
    if cancel.AtPoll? {
      CancelledIsCut(m, ConfigOf(r), NoHooks, cancel.n, poll0, r.promptIds, r.seed);
    }
  }

  /** A request off the queue: finished before the flag tripped, or cut just there. */
  lemma TakenEnds<C>(m: Model, reqs: seq<BatchRequest>, seqs: seq<SeqState>, events: seq<TaggedEvent>, times: seq<nat>,
                     now: nat, lanes: seq<Lane<C>>, cancel: CancelFlag, ri: nat)
    requires ValidRequests(reqs) && Books(m, reqs, seqs, events, |times|, lanes) && OnClock(seqs, times, now, lanes)
    requires ri < |times| <= |reqs| == |seqs| && !Tripped(cancel, now)
    requires lanes == [] || Tripped(cancel, now + 1)
    ensures OutputOf(seqs[ri]) == UnderFlag(m, reqs[ri], cancel, times[ri])
  {
    hide Books, Solo;
    DrawsOf(m, reqs, seqs, events, |times|, lanes, ri);
    UnderFlagIsCut(m, reqs[ri], cancel, times[ri]);
  }

  /** A request still waiting: nothing, or the empty output of a request without a budget. */
  lemma QueuedEnds(m: Model, r: BatchRequest, s: SeqState, cancel: CancelFlag, poll0: nat)
    requires r.promptIds != [] && Queued(r, s, []) && Tripped(cancel, poll0)
    ensures OutputOf(s) == UnderFlag(m, r, cancel, poll0)
  {
    hide Logits;
  }

  /** Whoever still waits when all slots are taken is admitted later. */
  lemma AdmittedLater(lives: seq<nat>, slots: nat, nextReq: nat, now: nat, ri: nat)
    requires slots > 0 && nextReq <= ri < |lives|
    requires FullSince(lives, Admissions(lives, slots, nextReq), slots, now)
    requires Occupied(lives, Admissions(lives, slots, nextReq), now) >= slots
    ensures Admissions(lives, slots, |lives|)[ri] > now
  {
    hide Occupied;
    var times := Admissions(lives, slots, nextReq);
    assert FirstFree(lives, times, slots, LastOf(times)) > now;
    AdmissionsGrow(lives, slots, nextReq + 1, |lives|);
    if ri == nextReq {
      assert Admissions(lives, slots, |lives|)[..nextReq + 1][ri] == Admissions(lives, slots, |lives|)[ri];
    }
  }

  /** A run that is through, or stopped at the first poll at which the flag is tripped, has for every request exactly
      its solo run under that flag, started at the pass the schedule gives it. */
  lemma EndsExactly<C>(m: Model, reqs: seq<BatchRequest>, seqs: seq<SeqState>, events: seq<TaggedEvent>, slots: nat,
                       nextReq: nat, now: nat, lanes: seq<Lane<C>>, cancel: CancelFlag)
    requires ValidRequests(reqs) && slots > 0 && |seqs| == |reqs| && Books(m, reqs, seqs, events, nextReq, lanes)
    requires OnSchedule(m, reqs, seqs, slots, nextReq, now, lanes)
    requires !Tripped(cancel, now) && (lanes == [] || Tripped(cancel, now + 1))
    requires |lanes| == slots || nextReq == |reqs|
    ensures forall ri :: 0 <= ri < |reqs| ==>
      OutputOf(seqs[ri]) == UnderFlag(m, reqs[ri], cancel, Admissions(Lives(m, reqs), slots, |reqs|)[ri])
  {
    hide OnClock, Lives, Occupied, UnderFlag, OutputOf, Books, Admissions;
    var lives := Lives(m, reqs);
    var times, all := Admissions(lives, slots, nextReq), Admissions(lives, slots, |reqs|);
    AdmissionsGrow(lives, slots, nextReq, |reqs|);
    OccupiedIsLanes(m, reqs, seqs, events, times, now, lanes);
    forall ri | 0 <= ri < |reqs| ensures OutputOf(seqs[ri]) == UnderFlag(m, reqs[ri], cancel, all[ri]) {
      if ri < nextReq {
        assert all[..nextReq][ri] == all[ri];
        TakenEnds(m, reqs, seqs, events, times, now, lanes, cancel, ri);
      } else {
        AdmittedLater(lives, slots, nextReq, now, ri);
        WaitingIsQueued(m, reqs, seqs, events, nextReq, lanes, ri);
        QueuedEnds(m, reqs[ri], seqs[ri], cancel, all[ri]);
      }
    }
  }

  lemma WaitingIsQueued<C>(m: Model, reqs: seq<BatchRequest>, seqs: seq<SeqState>, events: seq<TaggedEvent>,
                           nextReq: nat, lanes: seq<Lane<C>>, ri: nat)
    requires ValidRequests(reqs) && Books(m, reqs, seqs, events, nextReq, lanes) && nextReq <= ri < |reqs|
    ensures |seqs| == |reqs| && Queued(reqs[ri], seqs[ri], [])
  {
    assert StateOk(m, reqs[ri], seqs[ri], EventsFor(events, ri), false, LaneOf(lanes, ri));
  }

  /** A cancelled request has at most one token per poll between its admission and the flag. */
  lemma CutBounds(m: Model, r: BatchRequest, n: nat, poll0: nat)
    requires r.promptIds != []
    ensures |UnderFlag(m, r, AtPoll(n), poll0).tokens| <= Max(0, n - poll0)
  {
    UnderFlagIsCut(m, r, AtPoll(n), poll0);
  }
}
