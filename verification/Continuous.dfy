/** src/decode/continuous.rs: iteration-level continuous batching. Up to `maxBatch` requests decode at once over
    their own caches; a retiring request's slot is refilled at once from the queue. */
module Continuous {
  import opened Prelude
  import opened Attention
  import opened Llama
  import opened CausalLm
  import opened PagedKv
  import opened PagedLlama
  import opened PagedLanes
  import opened PerSeq
  import opened Stream
  import opened Scheduler
  import opened Lanes
  import opened Timing

  datatype BatchExactness = Exact | Throughput

  datatype ContinuousConfig = ContinuousConfig(maxBatch: nat, blockSize: nat, exactness: BatchExactness)

  /** One in-flight slot carries its own paged cache on the shared pool. */
  type Slot = Lane<PagedKvCache>

  function CachesOf(lanes: seq<Slot>): (out: seq<PagedKvCache>)
    ensures |out| == |lanes| && forall i :: 0 <= i < |lanes| ==> out[i] == lanes[i].slot
  {
    seq(|lanes|, i requires 0 <= i < |lanes| => lanes[i].slot)
  }

  function Histories(lanes: seq<Slot>): (out: seq<seq<int>>)
    ensures |out| == |lanes| && forall i :: 0 <= i < |lanes| ==> out[i] == lanes[i].history
  {
    seq(|lanes|, i requires 0 <= i < |lanes| => lanes[i].history)
  }

  /** The history but its last token, which is about to be fed. */
  function Fed(history: seq<int>): seq<int>
  {
    if history == [] then [] else history[..|history| - 1]
  }

  /** The first `k` lanes have been fed their token, the others have not. */
  function HeldAfter(lanes: seq<Slot>, k: nat): (out: seq<seq<int>>)
    ensures |out| == |lanes|
    ensures forall i :: 0 <= i < |lanes| ==> out[i] == if i < k then lanes[i].history else Fed(lanes[i].history)
  {
    seq(|lanes|, i requires 0 <= i < |lanes| => if i < k then lanes[i].history else Fed(lanes[i].history))
  }

  predicate NextTokens(lanes: seq<Slot>)
  {
    forall i :: 0 <= i < |lanes| ==>
      lanes[i].history != [] && lanes[i].nextToken == lanes[i].history[|lanes[i].history| - 1]
  }

  /** Every lane's cache holds its history but the token about to be fed, and the pool counts exactly their blocks. */
  ghost predicate LaneCaches(m: Model, pool: BlockPool, lanes: seq<Slot>)
    reads pool, CachesOf(lanes)
  {
    NextTokens(lanes) && LanesHold(m, pool, CachesOf(lanes), HeldAfter(lanes, 0))
  }

  // ----- admission -----

  /** `admit_lane`: prefill a queued request into a fresh lane and record its first token. A request that retires at
      once gives its blocks back. */
  method AdmitLane(m: Model, pool: BlockPool, lanes: seq<Slot>, reqs: seq<BatchRequest>, ri: nat, sched: Scheduler)
    returns (lane: Option<Slot>, emitted: seq<StreamEvent>)
    requires ValidModel(m) && ValidRequests(reqs) && ri < |reqs| == |sched.seqs|
    requires Queued(reqs[ri], sched.seqs[ri], []) && LaneCaches(m, pool, lanes)
    modifies sched, pool
    ensures |sched.seqs| == |reqs|
    ensures forall rj :: 0 <= rj < |reqs| && rj != ri ==> sched.seqs[rj] == old(sched.seqs)[rj]
    ensures lane.Some? ==>
      && fresh(lane.value.slot) && lane.value.reqIndex == ri
      && Live(m, reqs[ri], sched.seqs[ri], emitted, lane.value)
    ensures lane.None? ==> Retired(m, reqs[ri], sched.seqs[ri], emitted)
    ensures DrawnBy(sched.seqs[ri]) <= 1 && (lane.Some? ==> DrawnBy(sched.seqs[ri]) == 1)
    ensures LaneCaches(m, pool, if lane.Some? then lanes + [lane.value] else lanes)
    ensures Remaining(sched.seqs) <= old(Remaining(sched.seqs))
  {
    hide LanesHold, Live, Retired, Remaining, Logits, Queued;
    var r := reqs[ri];
    if !sched.IsActive(ri) {
      ZeroBudgetRetired(m, r, sched.seqs[ri]);
      return None, [Done(MaxTokens, 0)];
    }
    ghost var held := HeldAfter(lanes, 0);
    var caches := CachesOf(lanes);
    var cache := OpenLane(m, pool, caches, held);
    assert [] + r.promptIds == r.promptIds;
    var logits := ExtendLane(m, pool, caches + [cache], |caches|, r.promptIds, held + [[]]);
    assert (held + [[]])[|caches| := r.promptIds] == held + [r.promptIds];
    lane, emitted := RecordFirst(m, r, ri, sched, logits, cache);
    if lane.None? {
      CloseLast(m, pool, caches, cache, held, r.promptIds);
    } else {
      LiveFacts(m, r, sched.seqs[ri], emitted, lane.value);
      LaneJoined(m, pool, lanes, lane.value);
    }
  }

  /** The lane that was opened last goes again. */
  method CloseLast(m: Model, pool: BlockPool, caches: seq<PagedKvCache>, cache: PagedKvCache, ghost held: seq<seq<int>>,
                   ghost toks: seq<int>)
    requires |held| == |caches| && LanesHold(m, pool, caches + [cache], held + [toks])
    modifies pool
    ensures LanesHold(m, pool, caches, held)
  {
    WithoutMiddle(caches, cache, []);
    WithoutMiddle(held, toks, []);
    assert [cache] + [] == [cache] && [toks] + [] == [toks] && caches + [] == caches && held + [] == held;
    hide LanesHold, Without;
    DropHeld(m, pool, caches + [cache], |caches|, held + [toks]);
  }

  lemma LaneJoined(m: Model, pool: BlockPool, lanes: seq<Slot>, lane: Slot)
    requires NextTokens(lanes) && lane.history != [] && lane.nextToken == lane.history[|lane.history| - 1]
    requires LanesHold(m, pool, CachesOf(lanes) + [lane.slot], HeldAfter(lanes, 0) + [Fed(lane.history)])
    ensures LaneCaches(m, pool, lanes + [lane])
  {
    hide LanesHold;
    assert CachesOf(lanes + [lane]) == CachesOf(lanes) + [lane.slot];
    assert HeldAfter(lanes + [lane], 0) == HeldAfter(lanes, 0) + [Fed(lane.history)];
  }

  // ----- one decode step -----

  /** Row `i` of the logits is what lane `i`'s own history gives. */
  ghost predicate LaneLogits(m: Model, lanes: seq<Slot>, logits: seq<Vec>)
    requires |logits| <= |lanes| && NextTokens(lanes)
  {
    forall i :: 0 <= i < |logits| ==> logits[i] == Logits(m, lanes[i].history)
  }

  /** `step_logits`: in either mode every lane gets exactly the logits of its own history, as if it ran alone. */
  method StepLanes(m: Model, pool: BlockPool, lanes: seq<Slot>, exactness: BatchExactness) returns (logits: seq<Vec>)
    requires LaneCaches(m, pool, lanes)
    modifies CachesOf(lanes), pool
    ensures |logits| == |lanes| && LaneLogits(m, lanes, logits)
    ensures LanesHold(m, pool, CachesOf(lanes), Histories(lanes))
  {
    hide LanesHold, LaneLogits;
    match exactness {
      case Exact =>
        logits := StepExact(m, pool, lanes);
      case Throughput =>
        logits := StepThroughput(m, pool, lanes);
    }
  }

  /** One batch-1 step after the other. */
  method StepExact(m: Model, pool: BlockPool, lanes: seq<Slot>) returns (logits: seq<Vec>)
    requires LaneCaches(m, pool, lanes)
    modifies CachesOf(lanes), pool
    ensures |logits| == |lanes| && LaneLogits(m, lanes, logits)
    ensures LanesHold(m, pool, CachesOf(lanes), Histories(lanes))
  {
    hide LanesHold, Logits;
    var caches := CachesOf(lanes);
    logits := [];
    for k := 0 to |lanes|
      invariant |logits| == k && LaneLogits(m, lanes, logits)
      invariant LanesHold(m, pool, caches, HeldAfter(lanes, k))
    {
      FeedNext(lanes, k);
      var row := ExtendLane(m, pool, caches, k, [lanes[k].nextToken], HeldAfter(lanes, k));
      logits := logits + [row];
    }
    assert HeldAfter(lanes, |lanes|) == Histories(lanes);
  }

  lemma FeedNext(lanes: seq<Slot>, k: nat)
    requires NextTokens(lanes) && k < |lanes|
    ensures HeldAfter(lanes, k)[k] + [lanes[k].nextToken] == lanes[k].history
    ensures HeldAfter(lanes, k)[k := lanes[k].history] == HeldAfter(lanes, k + 1)
  {
  }

  function Offsets(caches: seq<PagedKvCache>): (out: seq<nat>)
    reads caches
    ensures |out| == |caches| && forall i :: 0 <= i < |caches| ==> out[i] == caches[i].Len()
  {
    seq(|caches|, i requires 0 <= i < |caches| reads caches => caches[i].Len())
  }

  /** One batched step over all lanes. */
  method StepThroughput(m: Model, pool: BlockPool, lanes: seq<Slot>) returns (logits: seq<Vec>)
    requires LaneCaches(m, pool, lanes)
    modifies CachesOf(lanes), pool
    ensures |logits| == |lanes| && LaneLogits(m, lanes, logits)
    ensures LanesHold(m, pool, CachesOf(lanes), Histories(lanes))
  {
    var caches := CachesOf(lanes);
    ghost var held := HeldAfter(lanes, 0);
    var feed := seq(|lanes|, i requires 0 <= i < |lanes| => lanes[i].nextToken);
    var positions := Offsets(caches);
    OffsetsAreHeld(m, pool, caches, held);
    hide LanesAt, LaneLogits, OwnSteps;
    var res := DecodeLogitsPerSeq(m, feed, pool, caches, positions, held);
    logits := res.value;
    ThroughputRows(m, lanes, feed, positions, logits);
  }

  lemma OffsetsAreHeld(m: Model, pool: BlockPool, caches: seq<PagedKvCache>, held: seq<seq<int>>)
    requires |held| == |caches| && LanesHold(m, pool, caches, held)
    ensures forall i :: 0 <= i < |caches| ==> Offsets(caches)[i] == |held[i]|
  {
    hide LanesAt;
    forall i | 0 <= i < |caches| ensures caches[i].Len() == |held[i]| {
      LaneAmongLanes(|m.layers|, pool, caches, i, RestPhases(m, held));
      PagedOffsetIsHeld(m, caches[i], held[i]);
    }
  }

  /** Rows of the batched step over caches that hold the histories but their last tokens. */
  lemma ThroughputRows(m: Model, lanes: seq<Slot>, feed: seq<int>, positions: seq<int>, logits: seq<Vec>)
    requires NextTokens(lanes) && |feed| == |positions| == |lanes|
    requires forall i :: 0 <= i < |lanes| ==> feed[i] == lanes[i].nextToken && positions[i] == |HeldAfter(lanes, 0)[i]|
    requires OwnSteps(m, HeldAfter(lanes, 0), feed, positions, logits)
    ensures |logits| == |lanes| && LaneLogits(m, lanes, logits)
    ensures Stepped(m, HeldAfter(lanes, 0), feed, positions) == RestPhases(m, Histories(lanes))
  {
    hide Logits, StepLogits, StepKv, CacheOf;
    var held := HeldAfter(lanes, 0);
    forall i | 0 <= i < |lanes|
      ensures logits[i] == Logits(m, lanes[i].history)
      ensures Stepped(m, held, feed, positions)[i] == Rest(m, lanes[i].history)
    {
      StepIsRecompute(m, held[i], [feed[i]], 0);
      assert [feed[i]][..1] == [feed[i]] && held[i] + [feed[i]] == lanes[i].history;
    }
  }

  /** One pass of the decode loop: step every lane, sample, retire the finished ones. */
  method DecodeStep(m: Model, pool: BlockPool, reqs: seq<BatchRequest>, sched: Scheduler, lanes: seq<Slot>,
                    exactness: BatchExactness, ghost nextReq: nat, events0: seq<TaggedEvent>)
    returns (survivors: seq<Slot>, events: seq<TaggedEvent>)
    requires ValidRequests(reqs) && Books(m, reqs, sched.seqs, events0, nextReq, lanes) && LaneCaches(m, pool, lanes)
    modifies sched, CachesOf(lanes), pool
    ensures Books(m, reqs, sched.seqs, events, nextReq, survivors) && LaneCaches(m, pool, survivors)
    ensures |survivors| <= |lanes|
    ensures lanes != [] ==> Remaining(sched.seqs) < old(Remaining(sched.seqs))
    ensures forall l :: l in survivors ==> l.slot in CachesOf(lanes)
    ensures Redrawn(old(sched.seqs), sched.seqs, lanes)
  {
    hide LanesHold, Books, Remaining, Logits, Redrawn;
    var perLane := StepLanes(m, pool, lanes, exactness);
    var keep;
    survivors, keep, events := RecordRows(m, reqs, sched, lanes, perLane, nextReq, events0);
    IncreasingFits(keep, |lanes|);
    DropRetired(m, pool, lanes, survivors, keep);
  }

  /** Lane `survivors[i]` is lane `lanes[keep[i]]` one token later. */
  ghost predicate Survive(lanes: seq<Slot>, survivors: seq<Slot>, keep: seq<nat>)
  {
    && |keep| == |survivors| && Increasing(keep, |lanes|)
    && forall i :: 0 <= i < |survivors| ==>
      Advanced(lanes[keep[i]], survivors[i]) && survivors[i].slot == lanes[keep[i]].slot
  }

  /** The lanes that go on, of those before `k`, and all from `k` on. */
  function StillOpen(lanes: seq<Slot>, survivors: seq<Slot>, j: nat, k: nat): seq<PagedKvCache>
    requires j <= |survivors| && k <= |lanes|
  {
    CachesOf(survivors[..j]) + CachesOf(lanes[k..])
  }

  function StillHeld(lanes: seq<Slot>, survivors: seq<Slot>, j: nat, k: nat): seq<seq<int>>
    requires j <= |survivors| && k <= |lanes|
  {
    HeldAfter(survivors[..j], 0) + Histories(lanes[k..])
  }

  /** Retired lanes go out of scope, one after the other: their blocks go back to the pool. */
  method DropRetired(m: Model, pool: BlockPool, lanes: seq<Slot>, survivors: seq<Slot>, keep: seq<nat>)
    requires Survive(lanes, survivors, keep) && LanesHold(m, pool, CachesOf(lanes), Histories(lanes))
    modifies pool
    ensures LaneCaches(m, pool, survivors)
  {
    hide LanesHold, StillOpen, StillHeld;
    var j := 0;
    OpenAtFirst(lanes, survivors);
    for k := 0 to |lanes|
      invariant j <= |keep| && (forall i :: 0 <= i < j ==> keep[i] < k)
          && (forall i :: j <= i < |keep| ==> keep[i] >= k)
      invariant LanesHold(m, pool, StillOpen(lanes, survivors, j, k), StillHeld(lanes, survivors, j, k))
    {
      if j < |keep| && keep[j] == k {
        LaneKept(lanes, survivors, keep, j);
        j := j + 1;
      } else {
        LaneGone(lanes, survivors, j, k);
        DropHeld(m, pool, StillOpen(lanes, survivors, j, k), j, StillHeld(lanes, survivors, j, k));
      }
    }
    OpenAtLast(lanes, survivors);
    Successors(lanes, survivors, keep);
  }

  lemma OpenAtFirst(lanes: seq<Slot>, survivors: seq<Slot>)
    ensures StillOpen(lanes, survivors, 0, 0) == CachesOf(lanes)
    ensures StillHeld(lanes, survivors, 0, 0) == Histories(lanes)
  {
    assert lanes[0..] == lanes;
  }

  lemma OpenAtLast(lanes: seq<Slot>, survivors: seq<Slot>)
    ensures StillOpen(lanes, survivors, |survivors|, |lanes|) == CachesOf(survivors)
    ensures StillHeld(lanes, survivors, |survivors|, |lanes|) == HeldAfter(survivors, 0)
  {
    assert survivors[..|survivors|] == survivors;
  }

  lemma LaneKept(lanes: seq<Slot>, survivors: seq<Slot>, keep: seq<nat>, j: nat)
    requires Survive(lanes, survivors, keep) && j < |keep|
    ensures StillOpen(lanes, survivors, j + 1, keep[j] + 1) == StillOpen(lanes, survivors, j, keep[j])
    ensures StillHeld(lanes, survivors, j + 1, keep[j] + 1) == StillHeld(lanes, survivors, j, keep[j])
  {
    var k, lane := keep[j], survivors[j];
    OpenSnoc(survivors, j);
    OpenCons(lanes, k);
    assert lane.slot == lanes[k].slot && Fed(lane.history) == lanes[k].history;
    hide *;
    Assoc(CachesOf(survivors[..j]), [lane.slot], CachesOf(lanes[k + 1..]));
    Assoc(HeldAfter(survivors[..j], 0), [lanes[k].history], Histories(lanes[k + 1..]));
  }

  lemma OpenSnoc(lanes: seq<Slot>, j: nat)
    requires j < |lanes|
    ensures CachesOf(lanes[..j + 1]) == CachesOf(lanes[..j]) + [lanes[j].slot]
    ensures HeldAfter(lanes[..j + 1], 0) == HeldAfter(lanes[..j], 0) + [Fed(lanes[j].history)]
  {
  }

  lemma OpenCons(lanes: seq<Slot>, k: nat)
    requires k < |lanes|
    ensures CachesOf(lanes[k..]) == [lanes[k].slot] + CachesOf(lanes[k + 1..])
    ensures Histories(lanes[k..]) == [lanes[k].history] + Histories(lanes[k + 1..])
  {
  }

  lemma LaneGone(lanes: seq<Slot>, survivors: seq<Slot>, j: nat, k: nat)
    requires j <= |survivors| && k < |lanes|
    ensures j < |StillOpen(lanes, survivors, j, k)| == |StillHeld(lanes, survivors, j, k)|
    ensures Without(StillOpen(lanes, survivors, j, k), j) == StillOpen(lanes, survivors, j, k + 1)
    ensures Without(StillHeld(lanes, survivors, j, k), j) == StillHeld(lanes, survivors, j, k + 1)
  {
    OpenCons(lanes, k);
    WithoutMiddle(CachesOf(survivors[..j]), lanes[k].slot, CachesOf(lanes[k + 1..]));
    WithoutMiddle(HeldAfter(survivors[..j], 0), lanes[k].history, Histories(lanes[k + 1..]));
  }

  lemma Successors(lanes: seq<Slot>, survivors: seq<Slot>, keep: seq<nat>)
    requires Survive(lanes, survivors, keep)
    ensures NextTokens(survivors)
  {
  }

  // ----- refill -----

  /** Fill free slots from the queue. Afterwards either every slot is taken or the queue is empty. */
  method Refill(m: Model, pool: BlockPool, reqs: seq<BatchRequest>, sched: Scheduler, maxBatch: nat, lanes0: seq<Slot>,
                nextReq0: nat, events0: seq<TaggedEvent>, ghost now: nat)
    returns (lanes: seq<Slot>, nextReq: nat, events: seq<TaggedEvent>)
    requires ValidModel(m) && ValidRequests(reqs)
    requires Books(m, reqs, sched.seqs, events0, nextReq0, lanes0) && LaneCaches(m, pool, lanes0)
    requires |lanes0| <= maxBatch && nextReq0 <= |reqs| && maxBatch > 0
    requires OnSchedule(m, reqs, sched.seqs, maxBatch, nextReq0, now, lanes0)
    modifies sched, pool
    ensures nextReq0 <= nextReq <= |reqs|
    ensures Books(m, reqs, sched.seqs, events, nextReq, lanes) && LaneCaches(m, pool, lanes)
    ensures |lanes| <= maxBatch && (|lanes| == maxBatch || nextReq == |reqs|)
    ensures OnSchedule(m, reqs, sched.seqs, maxBatch, nextReq, now, lanes)
    ensures Remaining(sched.seqs) <= old(Remaining(sched.seqs))
    ensures forall l :: l in lanes ==> fresh(l.slot) || l in lanes0
  {
    hide LanesHold, Books, Live, Retired, Remaining, LaneCaches, Queued, OnSchedule, DrawnBy;
    lanes, nextReq, events := lanes0, nextReq0, events0;
    while |lanes| < maxBatch && nextReq < |reqs|
      invariant nextReq0 <= nextReq <= |reqs| && |lanes| <= maxBatch
      invariant Remaining(sched.seqs) <= old(Remaining(sched.seqs))
      invariant Books(m, reqs, sched.seqs, events, nextReq, lanes) && LaneCaches(m, pool, lanes)
      invariant OnSchedule(m, reqs, sched.seqs, maxBatch, nextReq, now, lanes)
      invariant forall l :: l in lanes ==> fresh(l.slot) || l in lanes0
      invariant forall l :: l in lanes ==> allocated(l.slot)
    {
      NextIsQueued(m, reqs, sched.seqs, events, nextReq, lanes);
      ghost var seqs0 := sched.seqs;
      var lane, emitted := AdmitLane(m, pool, lanes, reqs, nextReq, sched);
      ScheduleAdmits(m, reqs, seqs0, sched.seqs, events, maxBatch, nextReq, now, lanes, lane);
      BooksAdmit(m, reqs, seqs0, sched.seqs, events, emitted, nextReq, lanes, lane);
      events := events + Tag(nextReq, emitted);
      if lane.Some? {
        lanes := lanes + [lane.value];
      }
      nextReq := nextReq + 1;
    }
  }

  /** Signal every request that is still decoding or waiting, once each. */
  method CancelRest(m: Model, reqs: seq<BatchRequest>, sched: Scheduler, lanes: seq<Slot>, nextReq: nat,
                    events0: seq<TaggedEvent>)
    returns (events: seq<TaggedEvent>)
    requires ValidRequests(reqs) && Books(m, reqs, sched.seqs, events0, nextReq, lanes)
    ensures |sched.seqs| == |reqs|
    ensures forall ri :: 0 <= ri < |reqs| ==>
      Delivered(m, reqs[ri], OutputOf(sched.seqs[ri]), EventsFor(events, ri))
    ensures forall e :: e in events ==> e.0 < |reqs|
  {
    hide Signalled, Books, Delivered, EventsFor, OutputOf;
    events := events0;
    SignalStart(m, reqs, sched.seqs, events, nextReq, lanes);
    SignalBounds(m, reqs, sched.seqs, events, nextReq, lanes, nextReq);
    assert lanes[0..] == lanes;
    var k := 0;
    while k < |lanes|
      invariant 0 <= k <= |lanes|
      invariant Signalled(m, reqs, sched.seqs, events, nextReq, lanes[k..], nextReq)
    {
      var lane := lanes[k];
      assert lanes[k..] == [lane] + lanes[k + 1..];
      SignalLane(m, reqs, sched.seqs, events, nextReq, lane, lanes[k + 1..]);
      events := events + Tag(lane.reqIndex, [Done(Cancelled, |sched.seqs[lane.reqIndex].generated|)]);
      k := k + 1;
    }
    assert lanes[k..] == [];
    var q := nextReq;
    while q < |reqs|
      invariant nextReq <= q <= |reqs|
      invariant Signalled<PagedKvCache>(m, reqs, sched.seqs, events, nextReq, [], q)
    {
      SignalQueued<PagedKvCache>(m, reqs, sched.seqs, events, nextReq, q);
      events := events + Tag(q, [QueueEnd(sched.seqs[q])]);
      q := q + 1;
    }
    SignalBounds<PagedKvCache>(m, reqs, sched.seqs, events, nextReq, [], q);
  }

  /** A new pool, no lanes. */
  lemma NoneOpen(m: Model, pool: BlockPool)
    requires ValidModel(m) && pool.Valid() && pool.held == multiset{}
    ensures LaneCaches(m, pool, [])
  {
    NoLanes(m, pool);
  }

  /** When the last lane is gone, so is every block. */
  lemma NothingLeft(m: Model, pool: BlockPool)
    requires LaneCaches(m, pool, [])
    ensures pool.held == multiset{}
  {
    NoLanes(m, pool);
  }

  /** The number of decode passes before request `ri` is admitted: first come, first served, each request holding its
      slot for as many passes as it runs alone. */
  function AdmittedAt(m: Model, reqs: seq<BatchRequest>, maxBatch: nat, ri: nat): nat
    requires ValidRequests(reqs) && maxBatch > 0 && ri < |reqs|
  {
    Admissions(Lives(m, reqs), maxBatch, |reqs|)[ri]
  }

  /** The run proper, once the arguments are accepted. */
  method Drive(m: Model, reqs: seq<BatchRequest>, config: ContinuousConfig, cancel: CancelFlag)
    returns (sched: Scheduler, events: seq<TaggedEvent>, ghost leftover: multiset<nat>)
    requires ValidModel(m) && ValidRequests(reqs) && config.maxBatch > 0 && config.blockSize > 0
    requires !Tripped(cancel, 0)
    ensures |sched.seqs| == |reqs| && forall e :: e in events ==> e.0 < |reqs|
    ensures forall ri :: 0 <= ri < |reqs| ==>
      Delivered(m, reqs[ri], OutputOf(sched.seqs[ri]), EventsFor(events, ri))
    ensures cancel.Never? ==> leftover == multiset{}
    ensures forall ri :: 0 <= ri < |reqs| ==>
      OutputOf(sched.seqs[ri]) == UnderFlag(m, reqs[ri], cancel, AdmittedAt(m, reqs, config.maxBatch, ri))
  {
    hide LanesHold, Books, LaneCaches, Delivered, OnSchedule, UnderFlag, OutputOf, Redrawn;
    sched := AdmitAll(reqs);
    StartBooks<PagedKvCache>(m, reqs, sched.seqs);
    var pool := new BlockPool(config.blockSize);
    NoneOpen(m, pool);
    var lanes, nextReq, poll;
    ScheduleStarts<PagedKvCache>(m, reqs, sched.seqs, config.maxBatch);
    lanes, nextReq, events := Refill(m, pool, reqs, sched, config.maxBatch, [], 0, [], 0);
    poll := 1;
    while lanes != []
      invariant Books(m, reqs, sched.seqs, events, nextReq, lanes) && LaneCaches(m, pool, lanes)
      invariant fresh(sched) && fresh(pool) && forall l :: l in lanes ==> fresh(l.slot)
      invariant |lanes| <= config.maxBatch && nextReq <= |reqs|
      invariant |lanes| == config.maxBatch || nextReq == |reqs|
      invariant poll > 0 && !Tripped(cancel, poll - 1)
      invariant OnSchedule(m, reqs, sched.seqs, config.maxBatch, nextReq, poll - 1, lanes)
      decreases Remaining(sched.seqs)
    {
      if Tripped(cancel, poll) {
        break;
      }
      poll := poll + 1;
      ghost var seqs0, events1, lanes0 := sched.seqs, events, lanes;
      lanes, events := DecodeStep(m, pool, reqs, sched, lanes, config.exactness, nextReq, events);
      ScheduleTicks(m, reqs, seqs0, sched.seqs, events1, events, config.maxBatch, nextReq, poll - 2, lanes0, lanes);
      lanes, nextReq, events := Refill(m, pool, reqs, sched, config.maxBatch, lanes, nextReq, events, poll - 1);
    }
    leftover := pool.held;
    BooksSizes(m, reqs, sched.seqs, events, nextReq, lanes);
    EndsExactly(m, reqs, sched.seqs, events, config.maxBatch, nextReq, poll - 1, lanes, cancel);
    if Tripped(cancel, poll) {
      events := CancelRest(m, reqs, sched, lanes, nextReq, events);
    } else {
      NothingLeft(m, pool);
      AllRetired<PagedKvCache>(m, reqs, sched.seqs, events);
    }
  }

  /** `generate_continuous`. Projected onto each request, a run is exactly that request's solo event stream and output,
      whatever the interleaving, under a cancel at any poll as well: then it is the solo run under the same flag,
      started at the pass in which the request got its slot. Every request gets exactly one `Done`, last among its
      events. An uncancelled run ends with no block held: `leftover` is what the pool still counts. */
  method GenerateContinuous(m: Model, reqs: seq<BatchRequest>, config: ContinuousConfig, cancel: CancelFlag)
    returns (res: Result<seq<GenerationOutput>, Error>, events: seq<TaggedEvent>, ghost leftover: multiset<nat>)
    requires ValidModel(m)
    ensures var bad := reqs == [] || config.maxBatch == 0 || config.blockSize == 0 || !ValidRequests(reqs);
      && (res.Err? <==> bad || Tripped(cancel, 0))
      && (bad ==> res.error.Msg?) && (!bad && Tripped(cancel, 0) ==> res == Err(Canceled))
    ensures res.Err? ==> events == []
    ensures res.Ok? ==> |res.value| == |reqs| && forall e :: e in events ==> e.0 < |reqs|
    ensures res.Ok? ==> forall ri :: 0 <= ri < |reqs| ==> Delivered(m, reqs[ri], res.value[ri], EventsFor(events, ri))
    ensures res.Ok? && cancel.Never? ==> forall ri :: 0 <= ri < |reqs| ==> res.value[ri] == SoloOf(m, reqs[ri])
    ensures res.Ok? ==> forall ri :: 0 <= ri < |reqs| ==>
      res.value[ri] == UnderFlag(m, reqs[ri], cancel, AdmittedAt(m, reqs, config.maxBatch, ri))
    ensures res.Ok? && cancel.AtPoll? ==> forall ri :: 0 <= ri < |reqs| ==> |res.value[ri].tokens| <= cancel.n
    ensures cancel.Never? ==> leftover == multiset{}
  {
    hide Delivered, UnderFlag;
    leftover := multiset{};
    if reqs == [] {
      return Err(Msg("generate_continuous: no requests")), [], leftover;
    }
    if config.maxBatch == 0 {
      return Err(Msg("generate_continuous: max_batch must be > 0")), [], leftover;
    }
    if config.blockSize == 0 {
      return Err(Msg("generate_continuous: block_size must be > 0")), [], leftover;
    }
    if !ValidRequests(reqs) {
      return Err(Msg("generate_continuous: a request has an empty prompt")), [], leftover;
    }
    if Tripped(cancel, 0) {
      return Err(Canceled), [], leftover;
    }
    var sched;
    sched, events, leftover := Drive(m, reqs, config, cancel);
    forall ri | 0 <= ri < |reqs|
      ensures cancel.Never? ==> OutputOf(sched.seqs[ri]) == SoloOf(m, reqs[ri])
      ensures cancel.AtPoll? ==> |OutputOf(sched.seqs[ri]).tokens| <= cancel.n
    {
      UnderFlagIsCut(m, reqs[ri], cancel, AdmittedAt(m, reqs, config.maxBatch, ri));
      if cancel.AtPoll? {
        CutBounds(m, reqs[ri], cancel.n, AdmittedAt(m, reqs, config.maxBatch, ri));
      }
    }
    res := Ok(seq(|sched.seqs|, i requires 0 <= i < |sched.seqs| reads sched => OutputOf(sched.seqs[i])));
  }
}
